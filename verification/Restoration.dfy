/**
 The whole configuration prelude of a recovery: the compacted list, completed from the device states that the boundary
 recorded, or refused.
 */
module Restoration {
  import opened Outcomes
  import opened Plan
  import opened Configurations
  import opened Compaction
  import opened Registers
  import opened Snapshots

  // ---- One record ----

  predicate Restorable(key: Key) {
    key.KeithleyKey? || key.RigolKey? || key.RigolOutputKey?
  }

  function FieldOrder(key: Key): (fields: seq<Field>)
    requires Restorable(key)
    ensures forall f :: f in fields <==> HasField(key, f)
  {
    match key
    case KeithleyKey(_) =>
      [Mode, LevelSi, ComplianceSi, Nplc, SettleTimeS, SenseMode, SourceAutorange, SourceRangeSi,
       MeasureVoltageAutorange, MeasureVoltageRangeSi, MeasureCurrentAutorange, MeasureCurrentRangeSi]
    case RigolKey(_) =>
      [Waveform, FrequencyHz, HighLevelV, LowLevelV, OutputLoad, PhaseDeg, SquareDutyPercent, RampSymmetryPercent,
       PulseWidthS, PulseLeadingS, PulseTrailingS]
    case RigolOutputKey(_) =>
      [OutputLoad, Polarity, OutputMode, GatePolarity, SyncEnabled, SyncPolarity, SyncDelayS]
  }

  /** The fields that these values tell something about. */
  function Telling(fields: seq<Field>, key: Key, values: map<Field, Value>): (told: seq<Field>)
    ensures forall f :: f in told <==> f in fields && Tells(key, values, f)
  {
    if fields == [] then []
    else
      var front := Telling(fields[..|fields| - 1], key, values);
      assert fields == fields[..|fields| - 1] + [fields[|fields| - 1]];
      if Tells(key, values, fields[|fields| - 1]) then front + [fields[|fields| - 1]] else front
  }

  /** A record with the values that were answered, or nothing if one is missing. */
  function FromAnswer(key: Key, c: Config, answer: map<Field, Value>): Result<Config>
    requires Restorable(key) && RecordOf(c, key)
  {
    if Complete(key, answer) then
      var values := map f | f in c.values :: answer[f];
      Ok(Config(values, Some(if key.RigolOutputKey? then FieldOrder(key) else Telling(FieldOrder(key), key, values))))
    else Err(ExecutionError)
  }

  /**
   A source is always restored to what was answered; without an answer only a complete record will do. A carrier and an
   output path are restored so when their records are patches. The rest stays as compacted.
   */
  function RestoredRecord(key: Key, c: Config, answer: map<Field, Value>): Result<Config>
    requires RecordOf(c, key)
  {
    if key.KeithleyKey? then
      if answer != map[] then FromAnswer(key, c, answer)
      else if c.mask.Some? then Err(ExecutionError)
      else Ok(Config(c.values, Some(Telling(FieldOrder(key), key, c.values))))
    else if key.RigolKey? || key.RigolOutputKey? then
      if c.mask.Some? then FromAnswer(key, c, answer) else Ok(c)
    else Ok(c)
  }

  /** A restored record tells the instrument exactly what was answered. */
  lemma FromAnswerSends(key: Key, c: Config, answer: map<Field, Value>)
    requires Restorable(key) && RecordOf(c, key) && FromAnswer(key, c, answer).Ok?
    ensures var restored := FromAnswer(key, c, answer).value;
            forall f :: Sends(key, restored, f) <==> Tells(key, answer, f)
    ensures var restored := FromAnswer(key, c, answer).value;
            forall f | Sends(key, restored, f) :: restored.values[f] == answer[f]
  {
    var restored := FromAnswer(key, c, answer).value;
    forall f ensures Tells(key, restored.values, f) <==> Tells(key, answer, f) {
    }
  }

  // ---- The analyzer ----

  /** A source that only measures is sent none of the settings of a source; any other is sent every answered setting. */
  lemma MeasuringSendsNoSource(smu: Smu, c: Config, answer: map<Field, Value>)
    requires RecordOf(c, KeithleyKey(smu)) && Complete(KeithleyKey(smu), answer)
    ensures FromAnswer(KeithleyKey(smu), c, answer).Ok?
    ensures var sent := FromAnswer(KeithleyKey(smu), c, answer).value.mask;
            && sent.Some?
            && (answer[Mode] == MEASURE_ONLY ==>
                  LevelSi !in sent.value && ComplianceSi !in sent.value && SourceAutorange !in sent.value && SourceRangeSi !in sent.value)
            && (answer[Mode] != MEASURE_ONLY ==>
                  forall f | HasField(KeithleyKey(smu), f) :: f in sent.value <==> answer[f] != Missing)
  {
    assert HasField(KeithleyKey(smu), Mode);
  }

  /** The numbers that an automatic mode decides. */
  predicate AutoOwned(answer: map<Field, Value>, f: Field) {
    || (f.RbwHz? && ValueOf(Config(answer, None), RbwAuto) == Flag(true))
    || (f.VbwHz? && ValueOf(Config(answer, None), VbwMode) != Text("manual"))
    || (f.AttenuationDb? && ValueOf(Config(answer, None), AttenuationAuto) == Flag(true))
    || (f.SweepTimeS? && ValueOf(Config(answer, None), SweepTimeAuto) == Flag(true))
  }

  predicate FilterKnown(answer: map<Field, Value>) {
    VbwFilterMode in answer && (answer[VbwFilterMode] == Text("VID") || answer[VbwFilterMode] == Text("POW"))
  }

  function AnalyzerRecord(answer: map<Field, Value>): Result<Config> {
    if Complete(AdvancedKey, answer) && FilterKnown(answer)
    then Ok(Config(map f | f in answer && HasField(AdvancedKey, f) :: if AutoOwned(answer, f) then Missing else answer[f], None))
    else Err(ExecutionError)
  }

  lemma AnalyzerRecordSends(answer: map<Field, Value>)
    requires AnalyzerRecord(answer).Ok?
    ensures var c := AnalyzerRecord(answer).value;
            && RecordOf(c, AdvancedKey)
            && (forall f :: Sends(AdvancedKey, c, f) <==> Tells(AdvancedKey, answer, f) && !AutoOwned(answer, f))
            && (forall f | Sends(AdvancedKey, c, f) :: c.values[f] == answer[f])
            && Sends(AdvancedKey, c, VbwFilterMode)
  {
  }

  /** A number is sent exactly if it was answered and its mode is not automatic; every other answered setting is sent. */
  lemma AutomaticNumbersAreNotSent(answer: map<Field, Value>)
    requires AnalyzerRecord(answer).Ok?
    ensures var c := AnalyzerRecord(answer).value;
            && (Sends(AdvancedKey, c, RbwHz) <==> answer[RbwHz] != Missing && answer[RbwAuto] != Flag(true))
            && (Sends(AdvancedKey, c, VbwHz) <==> answer[VbwHz] != Missing && answer[VbwMode] == Text("manual"))
            && (Sends(AdvancedKey, c, AttenuationDb) <==> answer[AttenuationDb] != Missing && answer[AttenuationAuto] != Flag(true))
            && (Sends(AdvancedKey, c, SweepTimeS) <==> answer[SweepTimeS] != Missing && answer[SweepTimeAuto] != Flag(true))
            && forall f | HasField(AdvancedKey, f) && !f.RbwHz? && !f.VbwHz? && !f.AttenuationDb? && !f.SweepTimeS? ::
                 Sends(AdvancedKey, c, f) <==> answer[f] != Missing
  {
    forall f | HasField(AdvancedKey, f) ensures f in answer {
    }
  }

  // ---- The list ----

  predicate AllConfigure(steps: seq<Step>) {
    forall i | 0 <= i < |steps| :: steps[i].Configure? && RecordOf(steps[i].config, steps[i].key)
  }

  function RestoredStep(step: Step, d: DeviceStates): Result<Step>
    requires step.Configure? && RecordOf(step.config, step.key)
  {
    match RestoredRecord(step.key, step.config, d.Actual(step.key))
    case Err(e) => Err(e)
    case Ok(c) => Ok(Configure(step.key, c))
  }

  predicate AllRestored(steps: seq<Step>, d: DeviceStates)
    requires AllConfigure(steps)
  {
    forall i | 0 <= i < |steps| :: RestoredStep(steps[i], d).Ok?
  }

  /** Every record of the compacted list, completed from what was answered. */
  method RestoreRecords(prelude: seq<PlanAction>, d: DeviceStates) returns (r: Result<seq<PlanAction>>)
    requires AllConfigure(Steps(prelude))
    ensures r.Ok? <==> AllRestored(Steps(prelude), d)
    ensures r.Ok? ==> |r.value| == |prelude| && forall i | 0 <= i < |prelude| ::
              && Ok(StepOf(r.value[i].kind)) == RestoredStep(Steps(prelude)[i], d)
              && r.value[i].nodeId == prelude[i].nodeId
  {
    hide RestoredRecord, StepOf, RecordOf;
    var result: seq<PlanAction> := [];
    for i := 0 to |prelude|
      invariant |result| == i
      invariant forall j | 0 <= j < i :: RestoredStep(Steps(prelude)[j], d).Ok?
      invariant forall j | 0 <= j < i ::
                  Ok(StepOf(result[j].kind)) == RestoredStep(Steps(prelude)[j], d) && result[j].nodeId == prelude[j].nodeId
    {
      var step := Steps(prelude)[i];
      var restored := RestoredRecord(step.key, step.config, d.Actual(step.key));
      if restored.Err? {
        assert RestoredStep(Steps(prelude)[i], d).Err?;
        return Err(ExecutionError);
      }
      RecordReplaced(prelude[i].kind, step.key, restored.value);
      result := result + [prelude[i].(kind := prelude[i].kind.(config := restored.value))];
    }
    return Ok(result);
  }

  lemma RecordReplaced(k: Kind, key: Key, c: Config)
    requires Configures(StepOf(k), key)
    ensures StepOf(k.(config := c)) == Configure(key, c)
  {
  }

  predicate HasKey(steps: seq<Step>, key: Key) {
    exists i | 0 <= i < |steps| :: Configures(steps[i], key)
  }

  /** One record of each class, with the analyzer's advanced settings right after its basic ones. */
  ghost predicate AnalyzerInserted(before: seq<Step>, after: seq<Step>, c: Config) {
    && OnePerKey(after)
    && (forall step | step in after && !Configures(step, AdvancedKey) :: step in before)
    && (forall step | step in before && !Configures(step, AdvancedKey) :: step in after)
    && exists i :: 0 <= i < |after| - 1 && after[i].key.SpectrumKey? && after[i + 1] == Configure(AdvancedKey, c)
  }

  const RECOVERY_NODE := "recovery.anritsu.advanced"

  /** The advanced analyzer settings are replaced by those answered, after the basic ones that they share registers with. */
  method InsertAnalyzer(prelude: seq<PlanAction>, c: Config) returns (result: seq<PlanAction>)
    requires OnePerKey(Steps(prelude)) && HasKey(Steps(prelude), SpectrumKey)
    ensures AnalyzerInserted(Steps(prelude), Steps(result), c)
  {
    hide StepOf;
    var kept, at := WithoutAdvanced(prelude);
    var analyzer := PlanAction(RECOVERY_NODE, ConfigureAnritsuAdvanced(c), false, false, None, false);
    AnalyzerStep(c);
    result := kept[..at + 1] + [analyzer] + kept[at + 1..];
    Inserted(Steps(prelude), Steps(kept), at, Steps(result), Configure(AdvancedKey, c));
  }

  lemma AnalyzerStep(c: Config)
    ensures StepOf(ConfigureAnritsuAdvanced(c)) == Configure(AdvancedKey, c)
  {
  }

  /** The list without advanced analyzer settings, and where the basic ones are in it. */
  method WithoutAdvanced(prelude: seq<PlanAction>) returns (kept: seq<PlanAction>, at: nat)
    requires OnePerKey(Steps(prelude)) && HasKey(Steps(prelude), SpectrumKey)
    ensures OnePerKey(Steps(kept)) && at < |kept| && Configures(Steps(kept)[at], SpectrumKey)
    ensures forall step :: step in Steps(kept) <==> step in Steps(prelude) && !Configures(step, AdvancedKey)
  {
    hide StepOf;
    kept := [];
    for i := 0 to |prelude|
      invariant forall step :: step in Steps(kept) <==> step in Steps(prelude)[..i] && !Configures(step, AdvancedKey)
      invariant OnePerKey(Steps(kept))
    {
      var action := prelude[i];
      assert Steps(prelude)[..i + 1] == Steps(prelude)[..i] + [StepOf(action.kind)];
      AdvancedKind(action.kind);
      if !action.kind.ConfigureAnritsuAdvanced? {
        OnePerKeyGrows(Steps(kept), Steps(prelude), i);
        assert Steps(kept + [action]) == Steps(kept) + [StepOf(action.kind)];
        kept := kept + [action];
      }
    }
    assert Steps(prelude)[..|prelude|] == Steps(prelude);
    SpectrumIsKept(Steps(prelude), Steps(kept));
    at := 0;
    while !kept[at].kind.ConfigureAnritsu?
      invariant at < |kept| && exists j :: at <= j < |kept| && Configures(Steps(kept)[j], SpectrumKey)
      decreases |kept| - at
    {
      SpectrumKind(kept[at].kind);
      at := at + 1;
    }
    SpectrumKind(kept[at].kind);
  }

  lemma AdvancedKind(k: Kind)
    ensures k.ConfigureAnritsuAdvanced? <==> Configures(StepOf(k), AdvancedKey)
  {
  }

  lemma SpectrumKind(k: Kind)
    ensures k.ConfigureAnritsu? <==> Configures(StepOf(k), SpectrumKey)
  {
  }

  lemma SpectrumIsKept(steps: seq<Step>, kept: seq<Step>)
    requires HasKey(steps, SpectrumKey)
    requires forall step :: step in kept <==> step in steps && !Configures(step, AdvancedKey)
    ensures exists j :: 0 <= j < |kept| && Configures(kept[j], SpectrumKey)
  {
    var i :| 0 <= i < |steps| && Configures(steps[i], SpectrumKey);
    assert steps[i] in kept;
  }

  lemma OnePerKeyGrows(kept: seq<Step>, steps: seq<Step>, i: nat)
    requires OnePerKey(kept) && OnePerKey(steps) && i < |steps|
    requires forall step | step in kept :: step in steps[..i]
    ensures OnePerKey(kept + [steps[i]])
  {
    forall j | 0 <= j < |kept| ensures kept[j].key != steps[i].key {
      assert kept[j] in steps[..i];
    }
  }

  lemma InsertedAt(kept: seq<Step>, at: nat, one: Step, after: seq<Step>, i: nat)
    requires at < |kept| && after == kept[..at + 1] + [one] + kept[at + 1..] && i < |after|
    ensures after[i] == if i <= at then kept[i] else if i == at + 1 then one else kept[i - 1]
  {
  }

  lemma InsertedMembers(kept: seq<Step>, at: nat, one: Step, after: seq<Step>, step: Step)
    requires at < |kept| && after == kept[..at + 1] + [one] + kept[at + 1..]
    ensures step in after <==> step == one || step in kept
  {
    assert kept == kept[..at + 1] + kept[at + 1..];
  }

  lemma InsertedOnePerKey(kept: seq<Step>, at: nat, one: Step, after: seq<Step>)
    requires at < |kept| && after == kept[..at + 1] + [one] + kept[at + 1..]
    requires OnePerKey(kept) && one.Configure? && forall i | 0 <= i < |kept| :: kept[i].key != one.key
    ensures OnePerKey(after)
  {
    forall i | 0 <= i < |after| ensures after[i].Configure? {
      InsertedAt(kept, at, one, after, i);
    }
    forall i, j | 0 <= i < j < |after| ensures after[i].key != after[j].key {
      InsertedAt(kept, at, one, after, i);
      InsertedAt(kept, at, one, after, j);
    }
  }

  lemma Inserted(before: seq<Step>, kept: seq<Step>, at: nat, after: seq<Step>, one: Step)
    requires OnePerKey(kept) && at < |kept| && Configures(kept[at], SpectrumKey) && Configures(one, AdvancedKey)
    requires forall step :: step in kept <==> step in before && !Configures(step, AdvancedKey)
    requires after == kept[..at + 1] + [one] + kept[at + 1..]
    ensures AnalyzerInserted(before, after, one.config)
  {
    forall i | 0 <= i < |kept| ensures kept[i].key != one.key {
      assert kept[i] in kept;
    }
    InsertedOnePerKey(kept, at, one, after);
    forall step ensures step in after <==> step == one || step in kept {
      InsertedMembers(kept, at, one, after, step);
    }
    var n := at + 1;
    InsertedAt(kept, at, one, after, at);
    InsertedAt(kept, at, one, after, n);
  }

  // ---- The whole prelude ----

  function RestoredAll(compacted: seq<Step>, d: DeviceStates): (steps: seq<Step>)
    requires AllConfigure(compacted) && AllRestored(compacted, d)
    ensures |steps| == |compacted|
  {
    seq(|compacted|, i requires 0 <= i < |compacted| => RestoredStep(compacted[i], d).value)
  }

  /** The analyzer was read, and its basic settings are part of the prelude. */
  predicate Replaces(compacted: seq<Step>, d: DeviceStates) {
    d.advanced.Some? && HasKey(compacted, SpectrumKey)
  }

  /** What was answered suffices to complete the compacted list. */
  predicate Sufficient(compacted: seq<Step>, d: DeviceStates) {
    && AllConfigure(compacted) && AllRestored(compacted, d)
    && (Replaces(compacted, d) ==> AnalyzerRecord(d.advanced.value).Ok?)
  }

  ghost predicate IsPrelude(compacted: seq<Step>, d: DeviceStates, prelude: seq<Step>) {
    && Sufficient(compacted, d)
    && if Replaces(compacted, d)
       then AnalyzerInserted(RestoredAll(compacted, d), prelude, AnalyzerRecord(d.advanced.value).value)
       else prelude == RestoredAll(compacted, d)
  }

  /** The prelude of a prefix. */
  ghost predicate PreludeOf(steps: seq<Step>, d: DeviceStates, prelude: seq<Step>) {
    exists compacted :: Compacts(steps, compacted) && IsPrelude(compacted, d, prelude)
  }

  /** An answer is missing that the compacted list needs. */
  ghost predicate Incomplete(steps: seq<Step>, d: DeviceStates) {
    exists compacted :: Compacts(steps, compacted) && !Sufficient(compacted, d)
  }

  lemma CompactedOnePerKey(steps: seq<Step>, compacted: seq<Step>)
    requires Compacts(steps, compacted)
    ensures OnePerKey(compacted)
  {
  }

  lemma CompactedConfigures(steps: seq<Step>, compacted: seq<Step>)
    requires Compacts(steps, compacted)
    ensures AllConfigure(compacted)
  {
    hide RecordOf, HasBaseline, Surviving, AllMasked, Writes;
    forall i | 0 <= i < |compacted| ensures compacted[i].Configure? && RecordOf(compacted[i].config, compacted[i].key) {
      assert EntryOf(steps, compacted[i].key, compacted[i].config);
    }
  }

  lemma RestoredKeys(compacted: seq<Step>, d: DeviceStates, key: Key)
    requires AllConfigure(compacted) && AllRestored(compacted, d)
    ensures HasKey(RestoredAll(compacted, d), key) <==> HasKey(compacted, key)
    ensures OnePerKey(compacted) ==> OnePerKey(RestoredAll(compacted, d))
  {
    hide RestoredRecord, RecordOf;
    var restored := RestoredAll(compacted, d);
    forall i | 0 <= i < |compacted| ensures restored[i].Configure? && restored[i].key == compacted[i].key {
    }
    if HasKey(compacted, key) {
      var i :| 0 <= i < |compacted| && Configures(compacted[i], key);
      assert Configures(restored[i], key);
    }
    if HasKey(restored, key) {
      var i :| 0 <= i < |restored| && Configures(restored[i], key);
      assert Configures(compacted[i], key);
    }
  }

  /**
   The configuration prelude: the compacted list of the prefix, with sources, carriers and output paths as they were
   answered and the analyzer's settings as it reported them; or a refusal, when a step has no baseline or an answer
   that is needed is missing.
   */
  method ConfigurationPrelude(plan: ExecutionPlan, nextActionIndex: nat, d: DeviceStates) returns (r: Result<seq<PlanAction>>)
    requires nextActionIndex <= |plan.actions| && WellTyped(Steps(plan.actions[..nextActionIndex]))
    ensures var steps := Steps(plan.actions[..nextActionIndex]);
            if r.Ok? then Accepted(steps) && PreludeOf(steps, d, Steps(r.value)) else !Accepted(steps) || Incomplete(steps, d)
  {
    hide WellTyped, Accepted, RecordOf, RestoredRecord, EntryOf, HasBaseline, StepOf, AnalyzerRecord, Compacts,
         AnalyzerInserted;
    var first, _ := CompactedPrelude(plan, nextActionIndex);
    if first.Err? {
      return Err(ExecutionError);
    }
    ghost var steps, compacted := Steps(plan.actions[..nextActionIndex]), Steps(first.value);
    CompactedConfigures(steps, compacted);
    r := RestoreRecords(first.value, d);
    if r.Err? {
      assert Compacts(steps, compacted) && !Sufficient(compacted, d);
      return;
    }
    CompactedOnePerKey(steps, compacted);
    RestoredKeys(compacted, d, SpectrumKey);
    assert Steps(r.value) == RestoredAll(compacted, d);
    var analyzed := exists i | 0 <= i < |r.value| :: Configures(StepOf(r.value[i].kind), SpectrumKey);
    assert analyzed <==> HasKey(Steps(r.value), SpectrumKey);
    if d.advanced.Some? && analyzed {
      var c := AnalyzerRecord(d.advanced.value);
      if c.Err? {
        assert Compacts(steps, compacted) && !Sufficient(compacted, d);
        return Err(ExecutionError);
      }
      var inserted := InsertAnalyzer(r.value, c.value);
      r := Ok(inserted);
    }
    assert Compacts(steps, compacted) && IsPrelude(compacted, d, Steps(r.value));
  }

  /** Every record of the prelude comes from the compacted list or is the analyzer's. */
  lemma PreludeOrigin(compacted: seq<Step>, d: DeviceStates, prelude: seq<Step>, i: nat) returns (j: nat)
    requires IsPrelude(compacted, d, prelude) && i < |prelude|
    ensures if Replaces(compacted, d) && Configures(prelude[i], AdvancedKey)
            then prelude[i] == Configure(AdvancedKey, AnalyzerRecord(d.advanced.value).value)
            else j < |compacted| && prelude[i] == RestoredAll(compacted, d)[j] && compacted[j].key == prelude[i].key
  {
    hide RecordOf, RestoredRecord, AnalyzerRecord, Sufficient;
    assert Sufficient(compacted, d);
    OfSufficient(compacted, d);
    j := i;
    if Replaces(compacted, d) {
      var c := AnalyzerRecord(d.advanced.value).value;
      if Configures(prelude[i], AdvancedKey) {
        var m :| 0 <= m < |prelude| - 1 && prelude[m].key.SpectrumKey? && prelude[m + 1] == Configure(AdvancedKey, c);
        var n := m + 1;
        assert i == n;
      } else {
        assert prelude[i] in RestoredAll(compacted, d);
        j :| 0 <= j < |compacted| && RestoredAll(compacted, d)[j] == prelude[i];
      }
    }
  }

  lemma OfSufficient(compacted: seq<Step>, d: DeviceStates)
    requires Sufficient(compacted, d)
    ensures AllConfigure(compacted) && AllRestored(compacted, d)
    ensures Replaces(compacted, d) ==> AnalyzerRecord(d.advanced.value).Ok?
    ensures forall j | 0 <= j < |compacted| :: RestoredAll(compacted, d)[j].Configure? && RestoredAll(compacted, d)[j].key == compacted[j].key
  {
    hide RestoredRecord, RecordOf, AnalyzerRecord;
  }

  lemma ReplacesRead(compacted: seq<Step>, d: DeviceStates)
    requires Replaces(compacted, d)
    ensures d.advanced.Some?
  {
  }
}
