/**
 A run of a compiled plan up to a boundary: from the first action on, or begun with the prelude of an earlier boundary.
 Either way the compacted list of the plan is to it what it is to the plan.
 */
module Legs {
  import opened Outcomes
  import opened Plan
  import opened Configurations
  import opened Compaction
  import opened Registers
  import opened Snapshots
  import opened CompiledPrelude
  import opened Restoration
  import P = PlannedState

  // ---- Registers that the compacted list decides ----

  /** A register that only one record class of the run writes, and the compaction keeps. */
  predicate Owns(steps: seq<Step>, key: Key, f: Field) {
    match key
    case SgKey => HasField(key, f)
    case SpectrumKey => f in P.ANALYZER_BASIS || (f == VbwMode && !HasBaseline(steps, |steps|, AdvancedKey))
    case AdvancedKey => HasField(key, f) && (f != VbwFilterMode || !HasBaseline(steps, |steps|, SpectrumKey))
    case _ => false
  }

  lemma OwnerWrites(step: Step, key: Key, f: Field)
    requires Regular(step) && (key.SgKey? || key.SpectrumKey? || key.AdvancedKey?)
    requires key.SgKey? ==> HasField(key, f)
    requires key.SpectrumKey? ==> f in P.ANALYZER_BASIS || (f == VbwMode && !Configures(step, AdvancedKey))
    requires key.AdvancedKey? ==> HasField(key, f) && (f != VbwFilterMode || !Configures(step, SpectrumKey))
    ensures Written(step, RegisterOf(key, f)) == Assigned(Effect(step, key), f)
    ensures !(key.SpectrumKey? && f == VbwMode) && f in Effect(step, key) ==> Effect(step, key)[f] != Missing
  {
    match step {
      case NoEffect =>
      case Update(k, fields) => UpdateWrites(k, fields, key, f);
      case Configure(k, c) => SetupWrites(k, c, key, f);
    }
  }

  lemma UpdateWrites(k: Key, fields: map<Field, Value>, key: Key, f: Field)
    requires Regular(Update(k, fields)) && (key.SgKey? || key.SpectrumKey? || key.AdvancedKey?)
    requires HasField(key, f)
    ensures Written(Update(k, fields), RegisterOf(key, f)) == Assigned(Effect(Update(k, fields), key), f)
    ensures f in Effect(Update(k, fields), key) ==> Effect(Update(k, fields), key)[f] != Missing
  {
    if key.SgKey? {
      hide LiveSetting;
    } else {
      UpdatesNoAnalyzer(k, fields, key, f);
    }
  }

  lemma UpdatesNoAnalyzer(k: Key, fields: map<Field, Value>, key: Key, f: Field)
    requires Regular(Update(k, fields)) && (key.SpectrumKey? || key.AdvancedKey?)
    ensures Written(Update(k, fields), RegisterOf(key, f)).None? && Effect(Update(k, fields), key) == map[]
  {
    hide LiveSetting, HasField;
  }

  lemma SetupWrites(k: Key, c: Config, key: Key, f: Field)
    requires Regular(Configure(k, c)) && (key.SgKey? || key.SpectrumKey? || key.AdvancedKey?)
    requires key.SgKey? ==> HasField(key, f)
    requires key.SpectrumKey? ==> f in P.ANALYZER_BASIS || (f == VbwMode && !k.AdvancedKey?)
    requires key.AdvancedKey? ==> HasField(key, f) && (f != VbwFilterMode || !k.SpectrumKey?)
    ensures Written(Configure(k, c), RegisterOf(key, f)) == Assigned(Effect(Configure(k, c), key), f)
    ensures !(key.SpectrumKey? && f == VbwMode) && f in Effect(Configure(k, c), key) ==> Effect(Configure(k, c), key)[f] != Missing
  {
    hide Regular, Written, Effect, HasField;
    match key {
      case SgKey => GeneratorSetupWrites(k, c, f);
      case SpectrumKey => SpectrumSetupWrites(k, c, f);
      case AdvancedKey => AdvancedSetupWrites(k, c, f);
    }
  }

  lemma GeneratorSetupWrites(k: Key, c: Config, f: Field)
    requires Regular(Configure(k, c)) && HasField(SgKey, f)
    ensures Written(Configure(k, c), GeneratorReg(f)) == Assigned(Effect(Configure(k, c), SgKey), f)
    ensures f in Effect(Configure(k, c), SgKey) ==> Effect(Configure(k, c), SgKey)[f] != Missing
  {
    assert f in P.GENERATOR_BASIS;
  }

  lemma SpectrumSetupWrites(k: Key, c: Config, f: Field)
    requires Regular(Configure(k, c)) && (f in P.ANALYZER_BASIS || (f == VbwMode && !k.AdvancedKey?))
    ensures Written(Configure(k, c), RegisterOf(SpectrumKey, f)) == Assigned(Effect(Configure(k, c), SpectrumKey), f)
    ensures f != VbwMode && f in Effect(Configure(k, c), SpectrumKey) ==> Effect(Configure(k, c), SpectrumKey)[f] != Missing
  {
    if k.SpectrumKey? {
      hide P.ANALYZER_SETTINGS;
      SpectrumField(f);
      hide RegisterOf, FieldAt;
    } else {
      hide Regular;
      BasisIsForeign(k, f);
    }
  }

  lemma SpectrumField(f: Field)
    requires f in P.ANALYZER_BASIS || f == VbwMode
    ensures HasField(SpectrumKey, f) && FieldAt(SpectrumKey, RegisterOf(SpectrumKey, f)) == Some(f)
  {
  }

  lemma BasisIsForeign(k: Key, f: Field)
    requires !k.SpectrumKey? && (f in P.ANALYZER_BASIS || (f == VbwMode && !k.AdvancedKey?))
    ensures FieldAt(k, RegisterOf(SpectrumKey, f)).None?
  {
  }

  lemma AdvancedSetupWrites(k: Key, c: Config, f: Field)
    requires Regular(Configure(k, c)) && HasField(AdvancedKey, f) && (f != VbwFilterMode || !k.SpectrumKey?)
    ensures Written(Configure(k, c), AnalyzerReg(f)) == Assigned(Effect(Configure(k, c), AdvancedKey), f)
    ensures f in Effect(Configure(k, c), AdvancedKey) ==> Effect(Configure(k, c), AdvancedKey)[f] != Missing
  {
    if k.SpectrumKey? {
      SpectrumIsForeign(c, f);
    }
  }

  lemma OwnedIsReplayed(steps: seq<Step>, key: Key, f: Field)
    requires AllRegular(steps) && Owns(steps, key, f)
    ensures Assigned(Replay(steps, key), f).Some? ==> Held(steps, RegisterOf(key, f)) == Assigned(Replay(steps, key), f)
    ensures !(key.SpectrumKey? && f == VbwMode) ==> Held(steps, RegisterOf(key, f)) == Assigned(Replay(steps, key), f)
  {
    hide Regular, Written, Effect, Replay, HasField;
    var r := RegisterOf(key, f);
    forall i | 0 <= i < |steps|
      ensures Written(steps[i], r) == Assigned(Effect(steps[i], key), f)
      ensures !(key.SpectrumKey? && f == VbwMode) && f in Effect(steps[i], key) ==> Effect(steps[i], key)[f] != Missing
    {
      assert Regular(steps[i]);
      assert Configures(steps[i], AdvancedKey) ==> HasBaseline(steps, |steps|, AdvancedKey);
      assert Configures(steps[i], SpectrumKey) ==> HasBaseline(steps, |steps|, SpectrumKey);
      OwnerWrites(steps[i], key, f);
    }
    assert OnlyWriter(steps, key, f, r);
    HeldIsReplay(steps, key, f, r);
  }

  // ---- A run of a compiled plan, up to a boundary ----

  /** What an action leaves to note besides its step; one that is kept for failures is not executed. */
  predicate NoteTaken(a: PlanAction, note: Note) {
    if a.faultOnly then note.Silent?
    else if a.kind.SetKeithleyOutput? || a.kind.RampKeithleyToZero? then note == Publishes(a.kind.smu)
    else if a.kind.Wait? && a.kind.settles.Some? then note == Settles(a.kind.settles.value, a.kind.durationS)
    else note.Silent? || (note.Reads? && (a.kind.AcquireReference? || a.kind.AcquireSpectrum?))
  }

  /** The step of an action that was executed: a ramp moves the level of a source that is driven. */
  predicate StepTaken(a: PlanAction, o: Observed) {
    && NoteTaken(a, o.note)
    && (o.step == StepOf(a.kind)
        || (a.kind.RampKeithleyToZero? && !a.faultOnly && o.step == Update(KeithleyKey(a.kind.smu), map[LevelSi := Number(0.0)])))
  }

  predicate Took(actions: seq<PlanAction>, run: seq<Observed>) {
    |run| == |actions| && forall i | 0 <= i < |run| :: StepTaken(actions[i], run[i])
  }

  /**
   A run that came to the boundary after n actions: it began with the prelude of a boundary after m actions, or, for
   m = 0, with the first action. Nothing is said of the states which that earlier boundary had recorded, so this is any
   run of a chain of resumed ones.
   */
  ghost predicate Leg(actions: seq<PlanAction>, m: nat, n: nat, d: DeviceStates, head: nat, run: seq<Observed>) {
    && m <= n <= |actions| && head <= |run|
    && PreludeOf(Steps(actions[..m]), d, StepsOf(run[..head])) && Took(actions[m..n], run[head..])
  }

  ghost predicate RanTo(actions: seq<PlanAction>, n: nat, run: seq<Observed>) {
    exists m, d, head :: Leg(actions, m, n, d, head, run)
  }

  /** A run from the first action on is one of them. */
  lemma FirstRun(actions: seq<PlanAction>, n: nat, run: seq<Observed>)
    requires n <= |actions| && Took(actions[..n], run)
    ensures RanTo(actions, n, run)
  {
    hide StepTaken;
    var none: seq<Step> := [];
    assert Compacts(none, none) && IsPrelude(none, NOTHING_RECORDED, none);
    assert actions[0..n] == actions[..n] && run[0..] == run;
    assert Leg(actions, 0, n, NOTHING_RECORDED, 0, run);
  }

  lemma BuiltIsRegular(p: P.Planned, k: Kind)
    requires P.BuiltFrom(p, k)
    ensures Regular(StepOf(k))
  {
    if k.UpdateAnritsuSg? {
      var fields := StepOf(k).fields;
      forall f | f in fields ensures LiveSetting(SgKey, f) && fields[f] != Missing {
        assert HasField(SgKey, f);
        assert f in P.GENERATOR_BASIS;
      }
    }
  }

  lemma RampIsRegular(s: Smu)
    ensures Regular(Update(KeithleyKey(s), map[LevelSi := Number(0.0)]))
  {
  }

  lemma PlanIsRegular(actions: seq<PlanAction>)
    requires P.Built(Kinds(actions))
    ensures AllRegular(Steps(actions))
  {
    hide P.BuiltFrom, StepOf, Regular;
    forall i | 0 <= i < |actions| ensures Regular(Steps(actions)[i]) {
      assert P.BuiltFrom(P.Replayed(Kinds(actions)[..i]), Kinds(actions)[i]);
      BuiltIsRegular(P.Replayed(Kinds(actions)[..i]), actions[i].kind);
    }
  }

  lemma RunIsRegular(actions: seq<PlanAction>, run: seq<Observed>)
    requires AllRegular(Steps(actions)) && Took(actions, run)
    ensures AllRegular(StepsOf(run))
  {
    hide StepOf, Regular, NoteTaken;
    forall i | 0 <= i < |run| ensures Regular(run[i].step) {
      assert StepTaken(actions[i], run[i]) && Regular(Steps(actions)[i]);
      if run[i].step != StepOf(actions[i].kind) {
        RampIsRegular(actions[i].kind.smu);
      }
    }
  }

  lemma TakenEffect(a: PlanAction, o: Observed, key: Key)
    requires StepTaken(a, o) && !key.KeithleyKey?
    ensures Effect(o.step, key) == Effect(StepOf(a.kind), key)
  {
    hide NoteTaken;
  }

  lemma TakenConfigures(a: PlanAction, o: Observed, key: Key)
    requires StepTaken(a, o)
    ensures Configures(o.step, key) <==> Configures(StepOf(a.kind), key)
  {
    hide NoteTaken;
  }

  /** A ramp aside, the run did what the plan says. */
  lemma {:induction false} RunReplays(actions: seq<PlanAction>, run: seq<Observed>, key: Key)
    requires Took(actions, run) && !key.KeithleyKey?
    ensures Replay(StepsOf(run), key) == Replay(Steps(actions), key)
  {
    hide StepTaken, Effect, StepOf;
    if run != [] {
      var m := |run| - 1;
      forall i | 0 <= i < m ensures StepTaken(actions[..m][i], run[..m][i]) {
        assert StepTaken(actions[i], run[i]);
      }
      RunReplays(actions[..m], run[..m], key);
      StepsOfFront(run);
      assert Steps(actions)[..m] == Steps(actions[..m]);
      assert StepTaken(actions[m], run[m]);
      TakenEffect(actions[m], run[m], key);
    }
  }

  lemma RunConfigures(actions: seq<PlanAction>, run: seq<Observed>, key: Key)
    requires Took(actions, run)
    ensures HasBaseline(StepsOf(run), |run|, key) <==> HasBaseline(Steps(actions), |actions|, key)
  {
    hide StepTaken, StepOf;
    forall i | 0 <= i < |run| ensures Configures(StepsOf(run)[i], key) <==> Configures(Steps(actions)[i], key) {
      assert StepTaken(actions[i], run[i]);
      TakenConfigures(actions[i], run[i], key);
    }
  }

  // ---- What the compacted list is to a run ----

  /** A record that is sent as it was compacted, because no answer replaces it. */
  predicate Unanswered(steps: seq<Step>, key: Key) {
    !Restorable(key) && (key.AdvancedKey? ==> !HasBaseline(steps, |steps|, SpectrumKey))
  }

  ghost predicate EntryOfRun(steps: seq<Step>, key: Key, c: Config) {
    && HasBaseline(steps, |steps|, key) && RecordOf(c, key)
    && (Unanswered(steps, key) ==> Writes(key, c) == Replay(steps, key))
    && (Restorable(key) ==> c.mask.Some?)
  }

  /** After a resume the analyzer's advanced settings may have been configured without being in the plan. */
  ghost predicate CompactsRun(steps: seq<Step>, compacted: seq<Step>) {
    && OnePerKey(compacted)
    && (forall i | 0 <= i < |compacted| :: EntryOfRun(steps, compacted[i].key, compacted[i].config))
    && (forall key | HasBaseline(steps, |steps|, key) ::
          HasKey(compacted, key) || (key.AdvancedKey? && HasKey(compacted, SpectrumKey)))
  }

  lemma RegularIsMasked(steps: seq<Step>, key: Key)
    requires AllRegular(steps) && (Restorable(key) || key.SpectrumKey?)
    ensures AllMasked(steps, |steps|, key)
  {
    forall j | 0 <= j < |steps| && Configures(steps[j], key) ensures steps[j].config.mask.Some? {
      assert Regular(steps[j]);
    }
  }

  // ---- The prelude as the beginning of a run ----

  lemma {:induction false} ReplayedBySetup(steps: seq<Step>, f: Field)
    requires AllRegular(steps) && f in Replay(steps, SpectrumKey)
    ensures f in P.ANALYZER_SETTINGS
  {
    var n := |steps| - 1;
    if f in Effect(steps[n], SpectrumKey) {
      assert Regular(steps[n]);
    } else {
      forall i | 0 <= i < n ensures Regular(steps[..n][i]) {
        assert Regular(steps[i]);
      }
      ReplayedBySetup(steps[..n], f);
    }
  }

  /** The basic settings of the analyzer and those of the generator are never empty. */
  lemma {:induction false} ReplayedIsStated(steps: seq<Step>, key: Key, f: Field)
    requires AllRegular(steps) && f in Replay(steps, key)
    requires (key.SpectrumKey? && f in P.ANALYZER_BASIS) || (key.SgKey? && f in P.GENERATOR_BASIS)
    ensures Replay(steps, key)[f] != Missing
  {
    hide HasField;
    var n := |steps| - 1;
    assert Regular(steps[n]);
    if f !in Effect(steps[n], key) {
      forall i | 0 <= i < n ensures Regular(steps[..n][i]) {
        assert Regular(steps[i]);
      }
      ReplayedIsStated(steps[..n], key, f);
    }
  }

  lemma SpectrumEntryIsRegular(steps: seq<Step>, c: Config)
    requires AllRegular(steps) && RecordOf(c, SpectrumKey) && c.mask.Some? && Writes(SpectrumKey, c) == Replay(steps, SpectrumKey)
    ensures Regular(Configure(SpectrumKey, c))
  {
    hide Replay, P.ANALYZER_SETTINGS, P.ANALYZER_BASIS;
    forall f | f in c.mask.value ensures f in P.ANALYZER_SETTINGS && (f in P.ANALYZER_BASIS ==> ValueOf(c, f) != Missing) {
      assert f in Writes(SpectrumKey, c);
      ReplayedBySetup(steps, f);
      if f in P.ANALYZER_BASIS {
        ReplayedIsStated(steps, SpectrumKey, f);
      }
    }
  }

  lemma GeneratorEntryIsRegular(steps: seq<Step>, c: Config)
    requires AllRegular(steps) && RecordOf(c, SgKey) && c.mask.None? && Writes(SgKey, c) == Replay(steps, SgKey)
    ensures Regular(Configure(SgKey, c))
  {
    hide Replay;
    forall f | f in P.GENERATOR_BASIS ensures ValueOf(c, f) != Missing {
      assert f in Writes(SgKey, c);
      ReplayedIsStated(steps, SgKey, f);
    }
  }

  lemma RestoredIsRegular(key: Key, c: Config, d: DeviceStates)
    requires Restorable(key) && RecordOf(c, key) && c.mask.Some? && RestoredStep(Configure(key, c), d).Ok?
    ensures Regular(RestoredStep(Configure(key, c), d).value)
  {
  }

  lemma KeptAsCompacted(key: Key, c: Config, d: DeviceStates)
    requires !Restorable(key) && RecordOf(c, key)
    ensures RestoredStep(Configure(key, c), d) == Ok(Configure(key, c))
  {
  }

  lemma EntryIsRegular(steps: seq<Step>, key: Key, c: Config, d: DeviceStates)
    requires AllRegular(steps) && EntryOf(steps, key, c) && Surviving(steps, key) == Replay(steps, key)
    requires RestoredStep(Configure(key, c), d).Ok?
    ensures Regular(RestoredStep(Configure(key, c), d).value)
  {
    hide Replay, Writes, Surviving, AllMasked, HasBaseline, RecordOf, Regular, RestoredStep, AllRegular;
    if Restorable(key) {
      RegularIsMasked(steps, key);
      RestoredIsRegular(key, c, d);
    } else {
      KeptAsCompacted(key, c, d);
      if key.SpectrumKey? {
        RegularIsMasked(steps, key);
        SpectrumEntryIsRegular(steps, c);
      } else if key.SgKey? {
        GeneratorEntryIsRegular(steps, c);
      } else {
        AdvancedIsRegular(c);
      }
    }
  }

  lemma AdvancedIsRegular(c: Config)
    requires RecordOf(c, AdvancedKey)
    ensures Regular(Configure(AdvancedKey, c))
  {
  }

  lemma PreludeIsRegular(steps: seq<Step>, compacted: seq<Step>, d: DeviceStates, prelude: seq<Step>)
    requires AllRegular(steps) && Compacts(steps, compacted) && IsPrelude(compacted, d, prelude)
    requires forall key :: Surviving(steps, key) == Replay(steps, key)
    ensures AllRegular(prelude)
  {
    hide EntryOf, Surviving, Replay, Regular, RestoredStep, AllRegular, Sufficient, AnalyzerRecord, Replaces,
         HasBaseline;
    assert Sufficient(compacted, d);
    OfSufficient(compacted, d);
    forall i | 0 <= i < |prelude| ensures Regular(prelude[i]) {
      var j := PreludeOrigin(compacted, d, prelude, i);
      if Replaces(compacted, d) && Configures(prelude[i], AdvancedKey) {
        ReplacesRead(compacted, d);
        AnalyzerRecordSends(d.advanced.value);
        AdvancedIsRegular(AnalyzerRecord(d.advanced.value).value);
      } else {
        assert EntryOf(steps, compacted[j].key, compacted[j].config);
        RestoredFrom(compacted, d, j);
        EntryIsRegular(steps, compacted[j].key, compacted[j].config, d);
      }
    }
    AllAreRegular(prelude);
  }

  lemma AllAreRegular(steps: seq<Step>)
    requires forall i | 0 <= i < |steps| :: Regular(steps[i])
    ensures AllRegular(steps)
  {
    hide Regular;
  }

  lemma RestoredFrom(compacted: seq<Step>, d: DeviceStates, j: nat)
    requires AllConfigure(compacted) && AllRestored(compacted, d) && j < |compacted|
    ensures compacted[j] == Configure(compacted[j].key, compacted[j].config)
    ensures RestoredStep(compacted[j], d).Ok? && RestoredAll(compacted, d)[j] == RestoredStep(compacted[j], d).value
  {
    hide RestoredStep, RecordOf;
  }

  /** The prelude configures every class that was configured, and of the others at most the advanced analyzer settings. */
  lemma PreludeConfigures(steps: seq<Step>, compacted: seq<Step>, d: DeviceStates, prelude: seq<Step>, key: Key)
    requires Compacts(steps, compacted) && IsPrelude(compacted, d, prelude)
    ensures OnePerKey(prelude)
    ensures HasBaseline(steps, |steps|, key) ==> HasBaseline(prelude, |prelude|, key)
    ensures HasBaseline(prelude, |prelude|, key) ==>
              HasBaseline(steps, |steps|, key) || (key.AdvancedKey? && HasBaseline(steps, |steps|, SpectrumKey))
  {
    hide Sufficient, AnalyzerRecord, RestoredStep, RecordOf, Writes, Surviving, AllMasked, HasBaseline;
    assert Sufficient(compacted, d);
    OfSufficient(compacted, d);
    CompactedOnePerKey(steps, compacted);
    RestoredKeys(compacted, d, key);
    CompactedBaseline(steps, compacted, key);
    CompactedBaseline(steps, compacted, SpectrumKey);
    KeysAreBaselines(prelude, key);
    if HasKey(compacted, key) {
      var j :| 0 <= j < |compacted| && Configures(RestoredAll(compacted, d)[j], key);
      KeyInPrelude(compacted, d, prelude, j);
    }
    if HasKey(prelude, key) {
      var i :| 0 <= i < |prelude| && Configures(prelude[i], key);
      var j := PreludeOrigin(compacted, d, prelude, i);
      if !(Replaces(compacted, d) && key.AdvancedKey?) {
        assert Configures(compacted[j], key);
      }
    }
  }

  lemma KeysAreBaselines(steps: seq<Step>, key: Key)
    ensures HasKey(steps, key) <==> HasBaseline(steps, |steps|, key)
  {
  }

  lemma CompactedBaseline(steps: seq<Step>, compacted: seq<Step>, key: Key)
    requires Compacts(steps, compacted)
    ensures HasKey(compacted, key) <==> HasBaseline(steps, |steps|, key)
  {
    hide RecordOf, Writes, Surviving, HasBaseline, AllMasked;
    if HasKey(compacted, key) {
      var i :| 0 <= i < |compacted| && Configures(compacted[i], key);
      assert EntryOf(steps, compacted[i].key, compacted[i].config);
    }
  }

  /** Whatever is restored is in the prelude, the advanced analyzer settings perhaps in another record. */
  lemma KeyInPrelude(compacted: seq<Step>, d: DeviceStates, prelude: seq<Step>, j: nat)
    requires IsPrelude(compacted, d, prelude) && AllConfigure(compacted) && AllRestored(compacted, d) && j < |compacted|
    ensures HasKey(prelude, compacted[j].key)
    ensures !(Replaces(compacted, d) && compacted[j].key.AdvancedKey?) ==> RestoredAll(compacted, d)[j] in prelude
  {
    hide Sufficient, AnalyzerRecord, RestoredStep, RecordOf, Replaces;
    assert Sufficient(compacted, d);
    OfSufficient(compacted, d);
    var step := RestoredAll(compacted, d)[j];
    if Replaces(compacted, d) && step.key.AdvancedKey? {
      ReplacesRead(compacted, d);
      var c := AnalyzerRecord(d.advanced.value).value;
      var m :| 0 <= m < |prelude| - 1 && prelude[m].key.SpectrumKey? && prelude[m + 1] == Configure(AdvancedKey, c);
      var n := m + 1;
      assert Configures(prelude[n], AdvancedKey);
    } else {
      assert step in RestoredAll(compacted, d);
      assert step in prelude;
      var i :| 0 <= i < |prelude| && prelude[i] == step;
      assert Configures(prelude[i], compacted[j].key);
    }
  }

  /** To a class that no answer replaces, the prelude is what the plan was. */
  lemma PreludeReplays(steps: seq<Step>, compacted: seq<Step>, d: DeviceStates, prelude: seq<Step>, key: Key)
    requires Compacts(steps, compacted) && IsPrelude(compacted, d, prelude) && Unanswered(steps, key)
    requires Surviving(steps, key) == Replay(steps, key)
    ensures Replay(prelude, key) == Replay(steps, key)
  {
    hide Sufficient, AnalyzerRecord, RestoredStep, RecordOf, Writes, Surviving, AllMasked, HasBaseline, Replay;
    assert Sufficient(compacted, d);
    OfSufficient(compacted, d);
    PreludeConfigures(steps, compacted, d, prelude, key);
    CompactedBaseline(steps, compacted, key);
    CompactedBaseline(steps, compacted, SpectrumKey);
    KeysAreBaselines(prelude, key);
    if HasKey(compacted, key) {
      var j :| 0 <= j < |compacted| && Configures(compacted[j], key);
      assert EntryOf(steps, compacted[j].key, compacted[j].config);
      EntryRecord(steps, key, compacted[j].config);
      RestoredFrom(compacted, d, j);
      KeptAsCompacted(key, compacted[j].config, d);
      KeyInPrelude(compacted, d, prelude, j);
      var i :| 0 <= i < |prelude| && prelude[i] == compacted[j];
      ReplayOfOne(prelude, key, i);
    } else {
      ReplayOfNone(steps, key);
      ReplayNone(prelude, key);
    }
  }

  lemma EntryRecord(steps: seq<Step>, key: Key, c: Config)
    requires EntryOf(steps, key, c)
    ensures RecordOf(c, key) && Writes(key, c) == Surviving(steps, key)
  {
    hide Writes, Surviving, AllMasked, HasBaseline, RecordOf;
  }

  lemma ReplayOfOne(steps: seq<Step>, key: Key, i: nat)
    requires OnePerKey(steps) && i < |steps| && steps[i].key == key
    ensures Replay(steps, key) == Writes(key, steps[i].config)
  {
    ReplayOnce(steps, key, i);
  }

  lemma ReplayOfNone(steps: seq<Step>, key: Key)
    requires !HasBaseline(steps, |steps|, key) && Surviving(steps, key) == Replay(steps, key)
    ensures Replay(steps, key) == map[]
  {
    assert steps[..|steps|] == steps;
    NoBaselineNothingSurvives(steps, |steps|, key);
  }

  lemma RegularConcat(a: seq<Step>, b: seq<Step>)
    requires AllRegular(a) && AllRegular(b)
    ensures AllRegular(a + b)
  {
    hide Regular;
    forall i | 0 <= i < |a + b| ensures Regular((a + b)[i]) {
      assert i < |a| ==> Regular(a[i]);
      assert i >= |a| ==> Regular(b[i - |a|]);
    }
  }

  lemma RegularSlice(steps: seq<Step>, m: nat, n: nat)
    requires AllRegular(steps) && m <= n <= |steps|
    ensures AllRegular(steps[m..n])
  {
    hide Regular;
    forall i | 0 <= i < n - m ensures Regular(steps[m..n][i]) {
      var j := m + i;
      assert Regular(steps[j]);
    }
  }

  /** The compaction of a prefix loses nothing of any class. */
  lemma PrefixSurvives(actions: seq<PlanAction>, n: nat)
    requires CompiledFlow(actions) && n <= |actions|
    ensures forall key :: Surviving(Steps(actions[..n]), key) == Replay(Steps(actions[..n]), key)
  {
    hide CompiledFlow, Surviving, Replay, Accepted, StepOf;
    assert Steps(actions[..n]) == Steps(actions)[..n];
    forall key ensures Surviving(Steps(actions[..n]), key) == Replay(Steps(actions[..n]), key) {
      CompactionLosesNothing(actions, n, key);
    }
  }

  lemma LegIsRegular(actions: seq<PlanAction>, m: nat, n: nat, d: DeviceStates, head: nat, run: seq<Observed>)
    requires CompiledFlow(actions) && Leg(actions, m, n, d, head, run)
    ensures AllRegular(StepsOf(run))
  {
    hide CompiledFlow, AllRegular, Took, StepOf, Compacts, IsPrelude, P.Built;
    var compacted :| Compacts(Steps(actions[..m]), compacted) && IsPrelude(compacted, d, StepsOf(run[..head]));
    CompiledFlowIsBuilt(actions);
    PlanIsRegular(actions);
    assert Steps(actions[..m]) == Steps(actions)[0..m] && Steps(actions[m..n]) == Steps(actions)[m..n];
    RegularSlice(Steps(actions), 0, m);
    RegularSlice(Steps(actions), m, n);
    PrefixSurvives(actions, m);
    PreludeIsRegular(Steps(actions[..m]), compacted, d, StepsOf(run[..head]));
    RunIsRegular(actions[m..n], run[head..]);
    RegularConcat(StepsOf(run[..head]), StepsOf(run[head..]));
    assert StepsOf(run) == StepsOf(run[..head]) + StepsOf(run[head..]);
  }

  lemma CompiledRunIsRegular(actions: seq<PlanAction>, n: nat, run: seq<Observed>)
    requires CompiledFlow(actions) && RanTo(actions, n, run)
    ensures AllRegular(StepsOf(run))
  {
    hide CompiledFlow, AllRegular, Leg;
    var m, d, head :| Leg(actions, m, n, d, head, run);
    LegIsRegular(actions, m, n, d, head, run);
  }

  /** One class, over the prelude and the actions after it. */
  lemma LegReplays(actions: seq<PlanAction>, m: nat, n: nat, d: DeviceStates, head: nat, run: seq<Observed>, key: Key)
    requires CompiledFlow(actions) && Leg(actions, m, n, d, head, run)
    ensures var planned, steps := Steps(actions[..n]), StepsOf(run);
            && (HasBaseline(planned, |planned|, key) ==> HasBaseline(steps, |steps|, key))
            && (HasBaseline(steps, |steps|, key) ==>
                  HasBaseline(planned, |planned|, key) || (key.AdvancedKey? && HasBaseline(planned, |planned|, SpectrumKey)))
            && (Unanswered(planned, key) ==> Replay(steps, key) == Replay(planned, key))
  {
    hide CompiledFlow, Took, StepOf, Compacts, IsPrelude, HasBaseline, Replay;
    var head0, rest := StepsOf(run[..head]), StepsOf(run[head..]);
    var before, after := Steps(actions[..m]), Steps(actions[m..n]);
    assert StepsOf(run) == head0 + rest;
    assert Steps(actions[..n]) == before + after;
    var compacted :| Compacts(before, compacted) && IsPrelude(compacted, d, head0);
    PreludeConfigures(before, compacted, d, head0, key);
    TookAll(actions[m..n], run[head..]);
    RunConfigures(actions[m..n], run[head..], key);
    BaselineConcat(head0, rest, key);
    BaselineConcat(before, after, key);
    BaselineConcat(before, after, SpectrumKey);
    if Unanswered(before + after, key) {
      PrefixSurvives(actions, m);
      PreludeReplays(before, compacted, d, head0, key);
      RunReplays(actions[m..n], run[head..], key);
      ReplayConcat(head0, rest, key);
      ReplayConcat(before, after, key);
    }
  }

  lemma TookAll(actions: seq<PlanAction>, run: seq<Observed>)
    requires Took(actions, run)
    ensures |StepsOf(run)| == |Steps(actions)|
  {
  }

  lemma RunIsCompacted(actions: seq<PlanAction>, n: nat, run: seq<Observed>, compacted: seq<Step>)
    requires CompiledFlow(actions) && RanTo(actions, n, run)
    requires n <= |actions| && Compacts(Steps(actions[..n]), compacted)
    ensures AllRegular(StepsOf(run)) && CompactsRun(StepsOf(run), compacted)
  {
    hide CompiledFlow, Leg, Regular, RecordOf, Writes, Replay, HasBaseline, AllMasked, Surviving, StepOf, HasField,
         P.Built;
    CompiledRunIsRegular(actions, n, run);
    var planned, steps := Steps(actions[..n]), StepsOf(run);
    var m, d, head :| Leg(actions, m, n, d, head, run);
    PrefixSurvives(actions, n);
    CompiledFlowIsBuilt(actions);
    PlanIsRegular(actions);
    assert planned == Steps(actions)[0..n];
    RegularSlice(Steps(actions), 0, n);
    LegReplays(actions, m, n, d, head, run, SpectrumKey);
    forall i | 0 <= i < |compacted| ensures EntryOfRun(steps, compacted[i].key, compacted[i].config) {
      var key := compacted[i].key;
      assert EntryOf(planned, key, compacted[i].config);
      LegReplays(actions, m, n, d, head, run, key);
      if Restorable(key) {
        RegularIsMasked(planned, key);
      }
    }
    forall key | HasBaseline(steps, |steps|, key)
      ensures HasKey(compacted, key) || (key.AdvancedKey? && HasKey(compacted, SpectrumKey))
    {
      LegReplays(actions, m, n, d, head, run, key);
      CompactedBaseline(planned, compacted, key);
      CompactedBaseline(planned, compacted, SpectrumKey);
    }
  }
}
