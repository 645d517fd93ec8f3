/**
 The device states that a run records after every configuration and live update, from what the instruments answer and
 what the runner has noted itself, and writes into its boundaries. What can be relied on when recovery reads them back
 is proved here.
 */
module Snapshots {
  import opened Outcomes
  import opened Plan
  import opened Configurations
  import opened Compaction
  import opened Registers
  import P = PlannedState

  /** What was last recorded for every source and carrier, for the output path of a carrier, and for the analyzer. */
  datatype DeviceStates = DeviceStates(
    source: map<Smu, map<Field, Value>>, carrier: map<RigolChannel, map<Field, Value>>,
    outputPath: map<RigolChannel, map<Field, Value>>, advanced: Option<map<Field, Value>>)
  {
    /** An absent section reads as an empty one. */
    function Actual(key: Key): map<Field, Value> {
      match key
      case KeithleyKey(s) => if s in source then source[s] else map[]
      case RigolKey(r) => if r in carrier then carrier[r] else map[]
      case RigolOutputKey(r) => if r in outputPath then outputPath[r] else map[]
      case AdvancedKey => if advanced.Some? then advanced.value else map[]
      case _ => map[]
    }
  }

  const NOTHING_RECORDED := DeviceStates(map[], map[], map[], None)

  /**
   What an action that configures nothing is to the record: an acquisition reads the analyzer, a point of a settling-time
   sweep notes its time for the source, and an output switch or a ramp records a source again.
   */
  datatype Note = Silent | Reads | Settles(smu: Smu, timeS: real) | Publishes(smu: Smu)

  /** One step of a run, what the instrument answered, and what else there is to note. */
  datatype Observed = Observed(step: Step, answer: map<Field, Value>, note: Note)

  /** The source that is recorded after a step. */
  function Published(o: Observed): Option<Smu> {
    match o.step
    case NoEffect => if o.note.Publishes? then Some(o.note.smu) else None
    case Configure(key, _) => if key.KeithleyKey? then Some(key.smu) else None
    case Update(key, _) => if key.KeithleyKey? then Some(key.smu) else None
  }

  /** A settling time is noted for a source without being recorded. */
  predicate SettlesSource(o: Observed, s: Smu) {
    o.step.NoEffect? && o.note.Settles? && o.note.smu == s
  }

  /** What the runner itself has noted about a source: every setup replaces it, live updates and settling waits amend it. */
  function ContextAfter(context: map<Field, Value>, o: Observed, s: Smu): map<Field, Value> {
    if Configures(o.step, KeithleyKey(s)) then o.answer
    else if o.step.Update? && o.step.key == KeithleyKey(s) then context + o.step.fields
    else if SettlesSource(o, s) then context[SettleTimeS := Number(o.note.timeS)]
    else context
  }

  function Context(run: seq<Observed>, s: Smu): map<Field, Value> {
    if run == [] then map[] else ContextAfter(Context(run[..|run| - 1], s), run[|run| - 1], s)
  }

  /** What the step publishes is all that the runner has noted about the source by then. */
  function PublishedContext(run: seq<Observed>): map<Field, Value>
    requires run != []
  {
    var published := Published(run[|run| - 1]);
    if published.Some? then Context(run, published.value) else map[]
  }

  /** What is recorded after one step. A carrier is recorded afresh, without the output path it had. */
  function RecordedAfter(d: DeviceStates, o: Observed, context: map<Field, Value>): DeviceStates {
    if Published(o).Some? then d.(source := d.source[Published(o).value := context])
    else
      match o.step
      case Configure(key, _) => RecordedSetup(d, key, o.answer)
      case Update(key, fields) => RecordedUpdate(d, key, fields)
      case NoEffect => if o.note.Reads? then d.(advanced := Some(o.answer)) else d
  }

  function RecordedSetup(d: DeviceStates, key: Key, answer: map<Field, Value>): DeviceStates {
    match key
    case RigolKey(r) => d.(carrier := d.carrier[r := answer], outputPath := d.outputPath - {r})
    case RigolOutputKey(r) => d.(outputPath := d.outputPath[r := answer])
    case AdvancedKey => d.(advanced := Some(answer))
    case _ => d
  }

  function RecordedUpdate(d: DeviceStates, key: Key, fields: map<Field, Value>): DeviceStates {
    if key.RigolKey? then d.(carrier := d.carrier[key.rigol := d.Actual(key) + fields]) else d
  }

  function Recorded(run: seq<Observed>): DeviceStates {
    if run == [] then NOTHING_RECORDED
    else RecordedAfter(Recorded(run[..|run| - 1]), run[|run| - 1], PublishedContext(run))
  }

  function StepsOf(run: seq<Observed>): (steps: seq<Step>)
    ensures |steps| == |run|
  {
    seq(|run|, i requires 0 <= i < |run| => run[i].step)
  }

  // ---- Instruments that answer truly ----

  predicate Complete(key: Key, answer: map<Field, Value>) {
    forall f: Field :: HasField(key, f) ==> f in answer
  }

  /** Whatever the answer tells about a field is what its register holds. */
  predicate True(initial: map<Register, Value>, steps: seq<Step>, key: Key, answer: map<Field, Value>) {
    forall f | Tells(key, answer, f) :: answer[f] == State(initial, steps, RegisterOf(key, f))
  }

  /** The class of record that an answer is about. */
  function Answered(o: Observed): Option<Key> {
    match o.step
    case Configure(key, _) => if key.SpectrumKey? || key.SgKey? then None else Some(key)
    case Update(_, _) => None
    case NoEffect => if o.note.Reads? then Some(AdvancedKey) else None
  }

  /** An output path that names another load than its carrier has is refused. */
  predicate LoadAgrees(initial: map<Register, Value>, before: seq<Step>, step: Step) {
    step.Configure? && step.key.RigolOutputKey? ==>
      var load := CarrierReg(step.key.rigol, OutputLoad);
      Written(step, load).Some? ==> Written(step, load).value == State(initial, before, load)
  }

  predicate FaithfulStep(initial: map<Register, Value>, before: seq<Step>, o: Observed) {
    && LoadAgrees(initial, before, o.step)
    && (Answered(o).Some? ==>
          Complete(Answered(o).value, o.answer) && True(initial, before + [o.step], Answered(o).value, o.answer))
  }

  /** Every answer of a run is complete and true. */
  predicate Faithful(initial: map<Register, Value>, run: seq<Observed>) {
    forall i | 0 <= i < |run| :: FaithfulStep(initial, StepsOf(run[..i]), run[i])
  }

  /** What the steps of a compiled plan satisfy. */
  predicate Regular(step: Step) {
    match step
    case Configure(key, c) =>
      && RecordOf(c, key) && (c.mask.None? <==> key.AdvancedKey? || key.SgKey?)
      && (key.SpectrumKey? ==>
            forall f | f in c.mask.value :: f in P.ANALYZER_SETTINGS && (f in P.ANALYZER_BASIS ==> ValueOf(c, f) != Missing))
      && (key.SgKey? ==> P.States(c, P.GENERATOR_BASIS))
    case Update(key, fields) =>
      && (key.KeithleyKey? || key.RigolKey? || key.SgKey?)
      && forall f | f in fields :: LiveSetting(key, f) && (key.SgKey? ==> fields[f] != Missing)
    case NoEffect => true
  }

  predicate AllRegular(steps: seq<Step>) {
    forall i | 0 <= i < |steps| :: Regular(steps[i])
  }

  // ---- What the record of a run is worth ----

  /** The fields whose record may lag behind: the settling time of a source and the filter mode of the analyzer. */
  predicate Lags(key: Key, f: Field) {
    (key.KeithleyKey? && f.SettleTimeS?) || (key.AdvancedKey? && f.VbwFilterMode?)
  }

  /** Whatever these values tell about any other field is what its register holds. */
  predicate Current(initial: map<Register, Value>, steps: seq<Step>, key: Key, values: map<Field, Value>) {
    forall f | Tells(key, values, f) && !Lags(key, f) :: values[f] == State(initial, steps, RegisterOf(key, f))
  }

  predicate SectionsTrue(initial: map<Register, Value>, steps: seq<Step>, d: DeviceStates) {
    && (forall s | s in d.source :: Current(initial, steps, KeithleyKey(s), d.source[s]))
    && (forall r | r in d.carrier :: Current(initial, steps, RigolKey(r), d.carrier[r]))
    && (forall r | r in d.outputPath :: Current(initial, steps, RigolOutputKey(r), d.outputPath[r]))
    && (d.advanced.Some? ==> Current(initial, steps, AdvancedKey, d.advanced.value))
  }

  lemma TrueIsCurrent(initial: map<Register, Value>, steps: seq<Step>, key: Key, answer: map<Field, Value>)
    requires True(initial, steps, key, answer)
    ensures Current(initial, steps, key, answer)
  {
    hide State, Tells;
  }

  /** A step that writes the registers of a section, if at all, only with what the section says keeps it current. */
  lemma StaysCurrent(initial: map<Register, Value>, steps: seq<Step>, step: Step, key: Key, values: map<Field, Value>)
    requires Current(initial, steps, key, values)
    requires forall f | Tells(key, values, f) && !Lags(key, f) ::
               var w := Written(step, RegisterOf(key, f)); w.None? || w.value == State(initial, steps, RegisterOf(key, f))
    ensures Current(initial, steps + [step], key, values)
  {
    hide Written, State;
    forall f | Tells(key, values, f) && !Lags(key, f) ensures values[f] == State(initial, steps + [step], RegisterOf(key, f)) {
      StateStep(initial, steps, step, RegisterOf(key, f));
    }
  }

  /** A live update, laid over what is current, leaves it current. */
  lemma UpdatedStaysCurrent(initial: map<Register, Value>, steps: seq<Step>, key: Key, fields: map<Field, Value>, values: map<Field, Value>)
    requires Current(initial, steps, key, values) && Regular(Update(key, fields))
    requires key.KeithleyKey? || key.RigolKey?
    ensures Current(initial, steps + [Update(key, fields)], key, values + fields)
  {
    var now := values + fields;
    forall f | Tells(key, now, f) && !Lags(key, f)
      ensures now[f] == State(initial, steps + [Update(key, fields)], RegisterOf(key, f))
    {
      StateStep(initial, steps, Update(key, fields), RegisterOf(key, f));
      LiveIsNoMode(key, fields);
      hide State;
      assert FieldAt(key, RegisterOf(key, f)) == Some(f);
      assert f !in fields ==> Tells(key, values, f);
    }
  }

  lemma LiveIsNoMode(key: Key, fields: map<Field, Value>)
    requires Regular(Update(key, fields))
    ensures Mode !in fields
  {
  }

  /** Which registers of another class a regular step can write at all: the load, from either side of a carrier's output. */
  lemma ForeignStep(step: Step, key: Key, f: Field)
    requires Regular(step) && HasField(key, f) && !key.SpectrumKey? && !key.SgKey?
    requires step.NoEffect? || step.key != key
    requires !Lags(key, f)
    ensures Written(step, RegisterOf(key, f)).Some? ==> f == OutputLoad && step.Configure? && SharesLoad(step.key, key)
  {
    if !step.NoEffect? && FieldAt(step.key, RegisterOf(key, f)).Some? {
      ForeignField(step.key, key, f);
      if step.Update? {
        hide HasField, FieldAt, RegisterOf;
        LoadIsNotLive(step.key);
      } else if step.key.SpectrumKey? {
        SpectrumIsForeign(step.config, f);
      }
    }
  }

  predicate SharesLoad(a: Key, b: Key) {
    (a.RigolKey? && b == RigolOutputKey(a.rigol)) || (b.RigolKey? && a == RigolOutputKey(b.rigol))
  }

  /** Only the two sides of an output, and the two kinds of analyzer settings, share registers. */
  lemma ForeignField(other: Key, key: Key, f: Field)
    requires other != key && HasField(key, f) && FieldAt(other, RegisterOf(key, f)).Some?
    ensures (SharesLoad(other, key) && f == OutputLoad && FieldAt(other, RegisterOf(key, f)) == Some(OutputLoad))
            || (other.SpectrumKey? && key.AdvancedKey?) || (other.AdvancedKey? && key.SpectrumKey?)
  {
  }

  lemma LoadIsNotLive(key: Key)
    ensures !LiveSetting(key, OutputLoad)
  {
  }

  lemma SpectrumIsForeign(c: Config, f: Field)
    requires Regular(Configure(SpectrumKey, c)) && HasField(AdvancedKey, f) && f != VbwFilterMode
    ensures Written(Configure(SpectrumKey, c), AnalyzerReg(f)).None?
  {
    assert f !in P.ANALYZER_SETTINGS || f == VbwMode;
  }

  lemma NothingTold(initial: map<Register, Value>, steps: seq<Step>, key: Key)
    ensures Current(initial, steps, key, map[])
  {
  }

  lemma RegularUpdates(step: Step)
    requires Regular(step) && step.Update?
    ensures step.key.KeithleyKey? || step.key.RigolKey? || step.key.SgKey?
  {
  }

  /** A section that a step is not about. */
  lemma ForeignSection(initial: map<Register, Value>, before: seq<Step>, step: Step, key: Key, values: map<Field, Value>)
    requires Current(initial, before, key, values) && Regular(step) && LoadAgrees(initial, before, step)
    requires !key.SpectrumKey? && !key.SgKey? && (step.NoEffect? || step.key != key)
    requires key.RigolOutputKey? ==> !(step.Configure? && step.key == RigolKey(key.rigol))
    ensures Current(initial, before + [step], key, values)
  {
    hide Written, State, Regular, Current;
    forall f | Tells(key, values, f) && !Lags(key, f)
      ensures var w := Written(step, RegisterOf(key, f)); w.None? || w.value == State(initial, before, RegisterOf(key, f))
    {
      ForeignStep(step, key, f);
    }
    StaysCurrent(initial, before, step, key, values);
  }

  /** Whatever is noted about a source is current: answered, updated, or left; a settling time lags. */
  lemma ContextStaysCurrent(initial: map<Register, Value>, before: seq<Step>, context: map<Field, Value>, o: Observed, s: Smu)
    requires Current(initial, before, KeithleyKey(s), context) && Regular(o.step) && FaithfulStep(initial, before, o)
    ensures Current(initial, before + [o.step], KeithleyKey(s), ContextAfter(context, o, s))
  {
    hide Tells, Regular, True, Current, Complete;
    var key := KeithleyKey(s);
    if Configures(o.step, key) {
      TrueIsCurrent(initial, before + [o.step], key, o.answer);
    } else if o.step.Update? && o.step.key == key {
      UpdatedStaysCurrent(initial, before, key, o.step.fields, context);
      assert o.step == Update(key, o.step.fields);
    } else {
      ForeignSection(initial, before, o.step, key, context);
      if SettlesSource(o, s) {
        SettlingLags(initial, before + [o.step], s, context, o.note.timeS);
      }
    }
  }

  lemma SettlingLags(initial: map<Register, Value>, steps: seq<Step>, s: Smu, values: map<Field, Value>, timeS: real)
    requires Current(initial, steps, KeithleyKey(s), values)
    ensures Current(initial, steps, KeithleyKey(s), values[SettleTimeS := Number(timeS)])
  {
    var key, now := KeithleyKey(s), values[SettleTimeS := Number(timeS)];
    forall f | Tells(key, now, f) && !Lags(key, f) ensures now[f] == State(initial, steps, RegisterOf(key, f)) {
      assert Tells(key, values, f);
    }
  }

  lemma {:induction false} ContextIsCurrent(initial: map<Register, Value>, run: seq<Observed>, s: Smu)
    requires Faithful(initial, run) && AllRegular(StepsOf(run))
    ensures Current(initial, StepsOf(run), KeithleyKey(s), Context(run, s))
  {
    hide FaithfulStep, Regular, Current, ContextAfter;
    if run == [] {
      NothingTold(initial, [], KeithleyKey(s));
    } else {
      var front, last := run[..|run| - 1], run[|run| - 1];
      StepsOfFront(run);
      FaithfulFront(initial, run);
      RegularFront(run);
      ContextIsCurrent(initial, front, s);
      ContextStaysCurrent(initial, StepsOf(front), Context(front, s), last, s);
    }
  }

  /** The section of a class after a step: published, answered, updated, or left. */
  lemma SourceStaysTrue(initial: map<Register, Value>, before: seq<Step>, d: DeviceStates, o: Observed, context: map<Field, Value>, s: Smu)
    requires SectionsTrue(initial, before, d) && Regular(o.step) && FaithfulStep(initial, before, o)
    requires Published(o) == Some(s) ==> Current(initial, before + [o.step], KeithleyKey(s), context)
    requires s in RecordedAfter(d, o, context).source
    ensures Current(initial, before + [o.step], KeithleyKey(s), RecordedAfter(d, o, context).source[s])
  {
    hide Tells, Regular, True, Current, Complete;
    if Published(o) != Some(s) {
      ForeignSection(initial, before, o.step, KeithleyKey(s), d.source[s]);
    }
  }

  lemma CarrierStaysTrue(initial: map<Register, Value>, before: seq<Step>, d: DeviceStates, o: Observed, context: map<Field, Value>, r: RigolChannel)
    requires SectionsTrue(initial, before, d) && Regular(o.step) && FaithfulStep(initial, before, o)
    requires r in RecordedAfter(d, o, context).carrier
    ensures Current(initial, before + [o.step], RigolKey(r), RecordedAfter(d, o, context).carrier[r])
  {
    hide Tells, Regular, True, Current, Complete;
    var key := RigolKey(r);
    if o.step.NoEffect? || o.step.key != key {
      ForeignSection(initial, before, o.step, key, d.carrier[r]);
    } else if o.step.Update? {
      NothingTold(initial, before, key);
      UpdatedStaysCurrent(initial, before, key, o.step.fields, d.Actual(key));
      assert o.step == Update(key, o.step.fields);
    } else {
      TrueIsCurrent(initial, before + [o.step], key, o.answer);
    }
  }

  lemma OutputPathStaysTrue(initial: map<Register, Value>, before: seq<Step>, d: DeviceStates, o: Observed, context: map<Field, Value>, r: RigolChannel)
    requires SectionsTrue(initial, before, d) && Regular(o.step) && FaithfulStep(initial, before, o)
    requires r in RecordedAfter(d, o, context).outputPath
    ensures Current(initial, before + [o.step], RigolOutputKey(r), RecordedAfter(d, o, context).outputPath[r])
  {
    hide Tells, True, Current, Complete;
    var key := RigolOutputKey(r);
    if o.step.NoEffect? || o.step.key != key {
      ForeignSection(initial, before, o.step, key, d.outputPath[r]);
    } else if o.step.Update? {
      RegularUpdates(o.step);
    } else {
      TrueIsCurrent(initial, before + [o.step], key, o.answer);
    }
  }

  lemma AnalyzerStaysTrue(initial: map<Register, Value>, before: seq<Step>, d: DeviceStates, o: Observed, context: map<Field, Value>)
    requires SectionsTrue(initial, before, d) && Regular(o.step) && FaithfulStep(initial, before, o)
    requires RecordedAfter(d, o, context).advanced.Some?
    ensures Current(initial, before + [o.step], AdvancedKey, RecordedAfter(d, o, context).advanced.value)
  {
    hide Regular, True, Current, Complete, LoadAgrees, Tells;
    if Answered(o) == Some(AdvancedKey) {
      TrueIsCurrent(initial, before + [o.step], AdvancedKey, o.answer);
    } else {
      KeepsAnalyzer(d, o, context);
      ForeignSection(initial, before, o.step, AdvancedKey, d.advanced.value);
    }
  }

  /** Only an answer about the analyzer's settings replaces that section. */
  lemma KeepsAnalyzer(d: DeviceStates, o: Observed, context: map<Field, Value>)
    requires Answered(o) != Some(AdvancedKey) && Regular(o.step)
    ensures RecordedAfter(d, o, context).advanced == d.advanced
    ensures o.step.NoEffect? || !o.step.key.AdvancedKey?
  {
    hide RecordOf;
  }

  lemma StepsOfFront(run: seq<Observed>)
    requires run != []
    ensures StepsOf(run) == StepsOf(run[..|run| - 1]) + [run[|run| - 1].step]
    ensures StepsOf(run)[..|run| - 1] == StepsOf(run[..|run| - 1])
  {
  }

  lemma FaithfulFront(initial: map<Register, Value>, run: seq<Observed>)
    requires run != [] && Faithful(initial, run)
    ensures Faithful(initial, run[..|run| - 1])
    ensures FaithfulStep(initial, StepsOf(run[..|run| - 1]), run[|run| - 1])
  {
    hide FaithfulStep;
    var front := run[..|run| - 1];
    forall i | 0 <= i < |front| ensures FaithfulStep(initial, StepsOf(front[..i]), front[i]) {
      assert front[..i] == run[..i];
    }
  }

  lemma RegularFront(run: seq<Observed>)
    requires run != [] && AllRegular(StepsOf(run))
    ensures AllRegular(StepsOf(run[..|run| - 1])) && Regular(run[|run| - 1].step)
  {
    hide Regular;
    var front := run[..|run| - 1];
    assert Regular(StepsOf(run)[|run| - 1]);
    forall i | 0 <= i < |front| ensures Regular(StepsOf(front)[i]) {
      assert StepsOf(front)[i] == StepsOf(run)[i];
    }
  }

  /**
   With instruments that answer truly, every recorded section is what the registers hold, however long ago it was
   recorded; the settling time of a source and the filter mode of the analyzer are spoken of below.
   */
  lemma {:induction false} RecordedIsTrue(initial: map<Register, Value>, run: seq<Observed>)
    requires Faithful(initial, run) && AllRegular(StepsOf(run))
    ensures SectionsTrue(initial, StepsOf(run), Recorded(run))
  {
    hide FaithfulStep, Regular, Current, RecordedAfter, Context;
    if run != [] {
      var front, last := run[..|run| - 1], run[|run| - 1];
      StepsOfFront(run);
      FaithfulFront(initial, run);
      RegularFront(run);
      RecordedIsTrue(initial, front);
      if Published(last).Some? {
        ContextIsCurrent(initial, run, Published(last).value);
      }
      SectionsStayTrue(initial, StepsOf(front), Recorded(front), last, PublishedContext(run));
    }
  }

  lemma SectionsStayTrue(initial: map<Register, Value>, before: seq<Step>, d: DeviceStates, o: Observed, context: map<Field, Value>)
    requires SectionsTrue(initial, before, d) && Regular(o.step) && FaithfulStep(initial, before, o)
    requires Published(o).Some? ==> Current(initial, before + [o.step], KeithleyKey(Published(o).value), context)
    ensures SectionsTrue(initial, before + [o.step], RecordedAfter(d, o, context))
  {
    hide FaithfulStep, Regular, Current, RecordedAfter;
    var after := RecordedAfter(d, o, context);
    forall s | s in after.source ensures Current(initial, before + [o.step], KeithleyKey(s), after.source[s]) {
      SourceStaysTrue(initial, before, d, o, context, s);
    }
    forall r | r in after.carrier ensures Current(initial, before + [o.step], RigolKey(r), after.carrier[r]) {
      CarrierStaysTrue(initial, before, d, o, context, r);
    }
    forall r | r in after.outputPath ensures Current(initial, before + [o.step], RigolOutputKey(r), after.outputPath[r]) {
      OutputPathStaysTrue(initial, before, d, o, context, r);
    }
    if after.advanced.Some? {
      AnalyzerStaysTrue(initial, before, d, o, context);
    }
  }

  // ---- Which sections there are ----

  /** The output path of a carrier was configured, and the carrier not since. */
  predicate PathStands(steps: seq<Step>, r: RigolChannel) {
    steps != [] &&
    var last := steps[|steps| - 1];
    (Configures(last, RigolOutputKey(r)) || (!Configures(last, RigolKey(r)) && PathStands(steps[..|steps| - 1], r)))
  }

  /** A complete section for everything that was configured, except that a path loses its own when its carrier is configured after it. */
  predicate SectionsComplete(steps: seq<Step>, d: DeviceStates) {
    && (forall s | HasBaseline(steps, |steps|, KeithleyKey(s)) :: s in d.source && Complete(KeithleyKey(s), d.source[s]))
    && (forall r | HasBaseline(steps, |steps|, RigolKey(r)) :: r in d.carrier && Complete(RigolKey(r), d.carrier[r]))
    && (forall r :: r in d.outputPath <==> PathStands(steps, r))
    && (forall r | r in d.outputPath :: Complete(RigolOutputKey(r), d.outputPath[r]))
    && (HasBaseline(steps, |steps|, AdvancedKey) ==> d.advanced.Some?)
    && (d.advanced.Some? ==> Complete(AdvancedKey, d.advanced.value))
  }

  lemma BaselineOneMore(steps: seq<Step>, step: Step, key: Key)
    ensures HasBaseline(steps + [step], |steps| + 1, key) <==> HasBaseline(steps, |steps|, key) || Configures(step, key)
  {
    var longer := steps + [step];
    if HasBaseline(steps, |steps|, key) {
      var j :| 0 <= j < |steps| && Configures(steps[j], key);
      assert Configures(longer[j], key);
    }
    assert Configures(step, key) ==> Configures(longer[|steps|], key);
  }

  lemma PathStandsStep(steps: seq<Step>, step: Step, r: RigolChannel)
    ensures PathStands(steps + [step], r) <==>
            Configures(step, RigolOutputKey(r)) || (!Configures(step, RigolKey(r)) && PathStands(steps, r))
  {
    assert (steps + [step])[..|steps|] == steps;
  }

  lemma {:induction false} ContextIsComplete(initial: map<Register, Value>, run: seq<Observed>, s: Smu)
    requires Faithful(initial, run) && HasBaseline(StepsOf(run), |run|, KeithleyKey(s))
    ensures Complete(KeithleyKey(s), Context(run, s))
  {
    hide True, LoadAgrees, HasBaseline, HasField;
    if run == [] {
      NoBaseline(KeithleyKey(s));
    } else {
      var front, last := run[..|run| - 1], run[|run| - 1];
      StepsOfFront(run);
      FaithfulFront(initial, run);
      BaselineOneMore(StepsOf(front), last.step, KeithleyKey(s));
      if HasBaseline(StepsOf(front), |front|, KeithleyKey(s)) {
        ContextIsComplete(initial, front, s);
      }
    }
  }

  lemma NoBaseline(key: Key)
    ensures !HasBaseline([], 0, key)
  {
  }

  lemma SourceStaysComplete(before: seq<Step>, d: DeviceStates, o: Observed, context: map<Field, Value>, s: Smu)
    requires SectionsComplete(before, d)
    requires Published(o) == Some(s) ==> Complete(KeithleyKey(s), context)
    requires HasBaseline(before + [o.step], |before| + 1, KeithleyKey(s))
    ensures var after := RecordedAfter(d, o, context); s in after.source && Complete(KeithleyKey(s), after.source[s])
  {
    hide HasBaseline, PathStands, HasField;
    BaselineOneMore(before, o.step, KeithleyKey(s));
  }

  lemma CarrierStaysComplete(
    initial: map<Register, Value>, before: seq<Step>, d: DeviceStates, o: Observed, context: map<Field, Value>, r: RigolChannel)
    requires SectionsComplete(before, d) && FaithfulStep(initial, before, o)
    requires HasBaseline(before + [o.step], |before| + 1, RigolKey(r))
    ensures var after := RecordedAfter(d, o, context); r in after.carrier && Complete(RigolKey(r), after.carrier[r])
  {
    hide True, LoadAgrees, HasBaseline, PathStands, HasField;
    BaselineOneMore(before, o.step, RigolKey(r));
  }

  lemma PathStaysComplete(
    initial: map<Register, Value>, before: seq<Step>, d: DeviceStates, o: Observed, context: map<Field, Value>, r: RigolChannel)
    requires SectionsComplete(before, d) && FaithfulStep(initial, before, o)
    ensures var after := RecordedAfter(d, o, context);
            && (r in after.outputPath <==> PathStands(before + [o.step], r))
            && (r in after.outputPath ==> Complete(RigolOutputKey(r), after.outputPath[r]))
  {
    hide True, LoadAgrees, HasBaseline, PathStands, Complete, RecordedAfter;
    PathStandsStep(before, o.step, r);
    RecordedPath(d, o, context, r);
  }

  lemma RecordedPath(d: DeviceStates, o: Observed, context: map<Field, Value>, r: RigolChannel)
    ensures var after := RecordedAfter(d, o, context).outputPath;
            if Configures(o.step, RigolOutputKey(r)) then r in after && after[r] == o.answer
            else if Configures(o.step, RigolKey(r)) then r !in after
            else (r in after <==> r in d.outputPath) && (r in after ==> after[r] == d.outputPath[r])
  {
    if Published(o).None? && o.step.Configure? {
      RecordedPathSetup(d, o.step.key, o.answer, r);
    }
  }

  lemma RecordedPathSetup(d: DeviceStates, key: Key, answer: map<Field, Value>, r: RigolChannel)
    ensures var after := RecordedSetup(d, key, answer).outputPath;
            if key == RigolOutputKey(r) then r in after && after[r] == answer
            else if key == RigolKey(r) then r !in after
            else (r in after <==> r in d.outputPath) && (r in after ==> after[r] == d.outputPath[r])
  {
  }

  lemma AnalyzerStaysComplete(
    initial: map<Register, Value>, before: seq<Step>, d: DeviceStates, o: Observed, context: map<Field, Value>)
    requires SectionsComplete(before, d) && FaithfulStep(initial, before, o)
    ensures var after := RecordedAfter(d, o, context);
            && (HasBaseline(before + [o.step], |before| + 1, AdvancedKey) ==> after.advanced.Some?)
            && (after.advanced.Some? ==> Complete(AdvancedKey, after.advanced.value))
  {
    hide True, LoadAgrees, HasBaseline, PathStands, HasField;
    BaselineOneMore(before, o.step, AdvancedKey);
  }

  lemma SectionsStayComplete(
    initial: map<Register, Value>, before: seq<Step>, d: DeviceStates, o: Observed, context: map<Field, Value>)
    requires SectionsComplete(before, d) && FaithfulStep(initial, before, o)
    requires Published(o).Some? ==>
               var key := KeithleyKey(Published(o).value); HasBaseline(before + [o.step], |before| + 1, key) ==> Complete(key, context)
    ensures SectionsComplete(before + [o.step], RecordedAfter(d, o, context))
  {
    hide FaithfulStep, HasBaseline, PathStands, Complete, RecordedAfter;
    var steps, after := before + [o.step], RecordedAfter(d, o, context);
    forall s | HasBaseline(steps, |steps|, KeithleyKey(s)) ensures s in after.source && Complete(KeithleyKey(s), after.source[s]) {
      SourceStaysComplete(before, d, o, context, s);
    }
    forall r | HasBaseline(steps, |steps|, RigolKey(r)) ensures r in after.carrier && Complete(RigolKey(r), after.carrier[r]) {
      CarrierStaysComplete(initial, before, d, o, context, r);
    }
    forall r ensures r in after.outputPath <==> PathStands(steps, r) {
      PathStaysComplete(initial, before, d, o, context, r);
    }
    forall r | r in after.outputPath ensures Complete(RigolOutputKey(r), after.outputPath[r]) {
      PathStaysComplete(initial, before, d, o, context, r);
    }
    AnalyzerStaysComplete(initial, before, d, o, context);
  }

  lemma {:induction false} RecordedIsComplete(initial: map<Register, Value>, run: seq<Observed>)
    requires Faithful(initial, run)
    ensures SectionsComplete(StepsOf(run), Recorded(run))
  {
    hide FaithfulStep, Complete, RecordedAfter, Context, HasBaseline;
    if run == [] {
      NothingConfigured();
    } else {
      var front, last := run[..|run| - 1], run[|run| - 1];
      StepsOfFront(run);
      FaithfulFront(initial, run);
      RecordedIsComplete(initial, front);
      if Published(last).Some? && HasBaseline(StepsOf(run), |run|, KeithleyKey(Published(last).value)) {
        ContextIsComplete(initial, run, Published(last).value);
      }
      SectionsStayComplete(initial, StepsOf(front), Recorded(front), last, PublishedContext(run));
    }
  }

  lemma NothingConfigured()
    ensures SectionsComplete([], NOTHING_RECORDED)
  {
  }

  // ---- The settling time ----

  /** The settling time that a sweep has noted for a source since its last setup. */
  function SettledSince(run: seq<Observed>, s: Smu): Option<real> {
    if run == [] then None
    else
      var last := run[|run| - 1];
      if Configures(last.step, KeithleyKey(s)) then None
      else if SettlesSource(last, s) then Some(last.note.timeS)
      else SettledSince(run[..|run| - 1], s)
  }

  /** The one of them that went into the section of the source, with a later record of it. */
  function TakenSince(run: seq<Observed>, s: Smu): Option<real> {
    if run == [] then None
    else if Published(run[|run| - 1]) == Some(s) then SettledSince(run, s)
    else TakenSince(run[..|run| - 1], s)
  }

  function SettleRegister(s: Smu): Register {
    SourceReg(s, SettleTimeS)
  }

  /** Only a setup of the source writes its settling time. */
  lemma SettleTimeStays(initial: map<Register, Value>, before: seq<Step>, step: Step, s: Smu)
    requires Regular(step) && !Configures(step, KeithleyKey(s))
    ensures State(initial, before + [step], SettleRegister(s)) == State(initial, before, SettleRegister(s))
  {
    StateStep(initial, before, step, SettleRegister(s));
    hide State;
  }

  lemma {:induction false} NotedSettleTime(initial: map<Register, Value>, run: seq<Observed>, s: Smu)
    requires Faithful(initial, run) && AllRegular(StepsOf(run)) && Tells(KeithleyKey(s), Context(run, s), SettleTimeS)
    ensures Context(run, s)[SettleTimeS] ==
            if SettledSince(run, s).Some? then Number(SettledSince(run, s).value)
            else State(initial, StepsOf(run), SettleRegister(s))
  {
    hide Regular, LoadAgrees, State, Complete;
    var front, last := run[..|run| - 1], run[|run| - 1];
    StepsOfFront(run);
    FaithfulFront(initial, run);
    RegularFront(run);
    if !Configures(last.step, KeithleyKey(s)) && !SettlesSource(last, s) {
      SettleTimeStays(initial, StepsOf(front), last.step, s);
      UpdatesNoSettleTime(last.step);
      NotedSettleTime(initial, front, s);
    }
  }

  lemma {:induction false} SettlingIsNoted(run: seq<Observed>, s: Smu)
    requires AllRegular(StepsOf(run)) && SettledSince(run, s).Some?
    ensures Tells(KeithleyKey(s), Context(run, s), SettleTimeS)
    ensures Context(run, s)[SettleTimeS] == Number(SettledSince(run, s).value)
  {
    hide Regular;
    var front, last := run[..|run| - 1], run[|run| - 1];
    StepsOfFront(run);
    RegularFront(run);
    if !SettlesSource(last, s) {
      UpdatesNoSettleTime(last.step);
      SettlingIsNoted(front, s);
    }
  }

  lemma {:induction false} LatestSettling(run: seq<Observed>, s: Smu, i: nat)
    requires i < |run| && SettlesSource(run[i], s)
    requires forall j | i < j < |run| :: !Configures(run[j].step, KeithleyKey(s)) && !SettlesSource(run[j], s)
    ensures SettledSince(run, s) == Some(run[i].note.timeS)
  {
    if i < |run| - 1 {
      LatestSettling(run[..|run| - 1], s, i);
    }
  }

  lemma UpdatesNoSettleTime(step: Step)
    requires Regular(step)
    ensures step.Update? ==> SettleTimeS !in step.fields
  {
  }

  /**
   The recorded settling time of a source is the one selected for it, unless a sweep of it noted another one that a
   later record has taken along: then it is that one.
   */
  lemma {:induction false} RecordedSettleTime(initial: map<Register, Value>, run: seq<Observed>, s: Smu)
    requires Faithful(initial, run) && AllRegular(StepsOf(run))
    requires s in Recorded(run).source && Tells(KeithleyKey(s), Recorded(run).source[s], SettleTimeS)
    ensures Recorded(run).source[s][SettleTimeS] ==
            if TakenSince(run, s).Some? then Number(TakenSince(run, s).value)
            else State(initial, StepsOf(run), SettleRegister(s))
  {
    hide Regular, FaithfulStep, State, Context, Tells, SettledSince;
    var front, last := run[..|run| - 1], run[|run| - 1];
    StepsOfFront(run);
    FaithfulFront(initial, run);
    RegularFront(run);
    if Published(last) == Some(s) {
      NotedSettleTime(initial, run, s);
    } else {
      SettleTimeStays(initial, StepsOf(front), last.step, s);
      RecordedSettleTime(initial, front, s);
    }
  }

  // ---- The filter mode ----

  /** The filter mode that a step has written since the analyzer was read last. */
  function FilterSince(run: seq<Observed>): Option<Value> {
    if run == [] then None
    else
      var last := run[|run| - 1];
      if Answered(last) == Some(AdvancedKey) then None
      else
        var w := Written(last.step, AnalyzerReg(VbwFilterMode));
        if w.Some? then w else FilterSince(run[..|run| - 1])
  }

  /** The recorded filter mode is the one the analyzer has if and only if no other one was written since. */
  lemma {:induction false} RecordedFilterIff(initial: map<Register, Value>, run: seq<Observed>)
    requires Faithful(initial, run) && AllRegular(StepsOf(run)) && Recorded(run).advanced.Some?
    requires Tells(AdvancedKey, Recorded(run).advanced.value, VbwFilterMode)
    ensures Recorded(run).advanced.value[VbwFilterMode] == State(initial, StepsOf(run), AnalyzerReg(VbwFilterMode)) <==>
            FilterSince(run).None? || FilterSince(run).value == Recorded(run).advanced.value[VbwFilterMode]
    ensures FilterSince(run).Some? ==> FilterSince(run).value == State(initial, StepsOf(run), AnalyzerReg(VbwFilterMode))
  {
    hide Regular, True, LoadAgrees, Written, State;
    var front, last := run[..|run| - 1], run[|run| - 1];
    StepsOfFront(run);
    FaithfulFront(initial, run);
    StateStep(initial, StepsOf(front), last.step, AnalyzerReg(VbwFilterMode));
    if Answered(last) == Some(AdvancedKey) {
      AnswerIsTrue(initial, StepsOf(run), last.answer, VbwFilterMode);
    } else {
      RegularFront(run);
      RecordedFilterIff(initial, front);
    }
  }

  lemma AnswerIsTrue(initial: map<Register, Value>, steps: seq<Step>, answer: map<Field, Value>, f: Field)
    requires True(initial, steps, AdvancedKey, answer) && Tells(AdvancedKey, answer, f)
    ensures answer[f] == State(initial, steps, AnalyzerReg(f))
  {
  }
}
