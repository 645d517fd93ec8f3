/**
 What a recovered run can rely on: the prelude of a boundary of a compiled plan leads the instruments back to where the
 boundary left them, in a run from the first action on as in one that was itself resumed, and exactly when it does not.
 */
module Resumption {
  import opened Outcomes
  import opened Plan
  import opened Configurations
  import opened Compaction
  import opened Registers
  import opened Snapshots
  import opened CompiledPrelude
  import opened Restoration
  import opened Legs
  import P = PlannedState

  // ---- What the prelude tells the instruments ----

  lemma AnswerHolds(initial: map<Register, Value>, run: seq<Observed>, key: Key)
    requires Faithful(initial, run) && AllRegular(StepsOf(run)) && Restorable(key)
    ensures Current(initial, StepsOf(run), key, Recorded(run).Actual(key))
  {
    hide FaithfulStep, Regular, Current, Recorded;
    RecordedIsTrue(initial, run);
    NothingTold(initial, StepsOf(run), key);
  }

  lemma WrittenBy(key: Key, c: Config, r: Register)
    requires Written(Configure(key, c), r).Some?
    ensures FieldAt(key, r).Some? && Sends(key, c, FieldAt(key, r).value) && r == RegisterOf(key, FieldAt(key, r).value)
    ensures Written(Configure(key, c), r).value == c.values[FieldAt(key, r).value]
  {
    OwnRegister(key, FieldAt(key, r).value, r);
  }

  predicate IsSettleTime(r: Register) {
    r.SourceReg? && r.field.SettleTimeS?
  }

  /** A source, carrier or output path that was restored is told what it already held. */
  lemma RestoredTellsTruth(initial: map<Register, Value>, run: seq<Observed>, key: Key, c: Config, r: Register)
    requires Faithful(initial, run) && AllRegular(StepsOf(run)) && Restorable(key) && EntryOfRun(StepsOf(run), key, c)
    requires RestoredStep(Configure(key, c), Recorded(run)).Ok?
    requires Written(RestoredStep(Configure(key, c), Recorded(run)).value, r).Some? && !IsSettleTime(r)
    ensures Written(RestoredStep(Configure(key, c), Recorded(run)).value, r).value == State(initial, StepsOf(run), r)
  {
    hide FaithfulStep, Regular, Recorded, RecordOf, Writes, Replay, HasBaseline, State, Written, FromAnswer, Sends,
         Tells, FieldAt, HasField;
    var answer := Recorded(run).Actual(key);
    var restored := RestoredRecord(key, c, answer).value;
    assert RestoredRecord(key, c, answer) == FromAnswer(key, c, answer);
    FromAnswerSends(key, c, answer);
    AnswerHolds(initial, run, key);
    WrittenBy(key, restored, r);
  }

  lemma OwnedSends(steps: seq<Step>, key: Key, c: Config, f: Field)
    requires EntryOfRun(steps, key, c) && Unanswered(steps, key)
    ensures Sends(key, c, f) <==> HasField(key, f) && Assigned(Replay(steps, key), f).Some?
    ensures Sends(key, c, f) ==> Assigned(Replay(steps, key), f) == Some(c.values[f])
  {
    hide HasBaseline, Replay;
    assert f in Writes(key, c) <==> f in Replay(steps, key);
  }

  /** So is one that stays as it was compacted, if nothing else writes its register. */
  lemma OwnedTellsTruth(initial: map<Register, Value>, steps: seq<Step>, key: Key, c: Config, r: Register)
    requires AllRegular(steps) && EntryOfRun(steps, key, c) && !Restorable(key)
    requires key.SpectrumKey? && r == AnalyzerReg(VbwFilterMode) ==> !HasBaseline(steps, |steps|, AdvancedKey)
    requires key.AdvancedKey? ==> !HasBaseline(steps, |steps|, SpectrumKey)
    requires Written(Configure(key, c), r).Some?
    ensures Written(Configure(key, c), r).value == State(initial, steps, r)
  {
    hide Regular, RecordOf, Writes, Replay, HasBaseline, Written, Sends, Held, AllRegular;
    WrittenBy(key, c, r);
    var f := FieldAt(key, r).value;
    OwnedSends(steps, key, c, f);
    if key.SpectrumKey? {
      SpectrumSendsSettings(steps, c, f);
    }
    OwnedIsReplayed(steps, key, f);
  }

  lemma SpectrumSendsSettings(steps: seq<Step>, c: Config, f: Field)
    requires AllRegular(steps) && EntryOfRun(steps, SpectrumKey, c) && Sends(SpectrumKey, c, f)
    ensures f in P.ANALYZER_BASIS || f == VbwMode
  {
    OwnedSends(steps, SpectrumKey, c, f);
    ReplayedBySetup(steps, f);
  }

  const FILTER := AnalyzerReg(VbwFilterMode)

  lemma HasKeyConfigured(steps: seq<Step>, compacted: seq<Step>, key: Key)
    requires CompactsRun(steps, compacted)
    ensures HasKey(compacted, key) ==> HasBaseline(steps, |steps|, key)
    ensures HasBaseline(steps, |steps|, key) ==> HasKey(compacted, key) || (key.AdvancedKey? && HasKey(compacted, SpectrumKey))
  {
    hide RecordOf, Writes, Replay, HasBaseline;
    if HasKey(compacted, key) {
      var i :| 0 <= i < |compacted| && Configures(compacted[i], key);
      assert EntryOfRun(steps, compacted[i].key, compacted[i].config);
    }
  }

  /** One restored record of the prelude. */
  lemma EntryTellsTruth(initial: map<Register, Value>, run: seq<Observed>, compacted: seq<Step>, j: nat, r: Register)
    requires Faithful(initial, run) && AllRegular(StepsOf(run)) && CompactsRun(StepsOf(run), compacted)
    requires Sufficient(compacted, Recorded(run)) && j < |compacted|
    requires Replaces(compacted, Recorded(run)) ==> !compacted[j].key.AdvancedKey? && r != FILTER
    requires Written(RestoredAll(compacted, Recorded(run))[j], r).Some? && !IsSettleTime(r)
    ensures Written(RestoredAll(compacted, Recorded(run))[j], r).value == State(initial, StepsOf(run), r)
  {
    hide Faithful, Recorded, RecordOf, HasBaseline, State, Written, SectionsComplete;
    var d, key, c := Recorded(run), compacted[j].key, compacted[j].config;
    assert EntryOfRun(StepsOf(run), key, c) && compacted[j] == Configure(key, c);
    assert RestoredStep(compacted[j], d).Ok?;
    if Restorable(key) {
      RestoredTellsTruth(initial, run, key, c, r);
    } else {
      RecordedIsComplete(initial, run);
      SectionOfAnalyzer(StepsOf(run), d);
      HasKeyConfigured(StepsOf(run), compacted, SpectrumKey);
      assert HasKey(compacted, key);
      assert RestoredStep(compacted[j], d) == Ok(compacted[j]);
      OwnedTellsTruth(initial, StepsOf(run), key, c, r);
    }
  }

  lemma SectionOfAnalyzer(steps: seq<Step>, d: DeviceStates)
    requires SectionsComplete(steps, d)
    ensures HasBaseline(steps, |steps|, AdvancedKey) ==> d.advanced.Some?
  {
  }

  /** The analyzer's settings as it reported them are those it has, but for the filter mode. */
  lemma AnalyzerTellsTruth(initial: map<Register, Value>, run: seq<Observed>, r: Register)
    requires Faithful(initial, run) && AllRegular(StepsOf(run)) && Recorded(run).advanced.Some? && r != FILTER
    requires AnalyzerRecord(Recorded(run).advanced.value).Ok?
    requires Written(Configure(AdvancedKey, AnalyzerRecord(Recorded(run).advanced.value).value), r).Some?
    ensures Written(Configure(AdvancedKey, AnalyzerRecord(Recorded(run).advanced.value).value), r).value == State(initial, StepsOf(run), r)
  {
    hide Faithful, Regular, Recorded, State, Written, AnalyzerRecord, Sends, Tells, AllRegular, True;
    var answer := Recorded(run).advanced.value;
    AnalyzerRecordSends(answer);
    RecordedIsTrue(initial, run);
    WrittenBy(AdvancedKey, AnalyzerRecord(answer).value, r);
  }

  lemma PreludeTellsTruth(
    initial: map<Register, Value>, run: seq<Observed>, compacted: seq<Step>, prelude: seq<Step>, r: Register)
    requires Faithful(initial, run) && AllRegular(StepsOf(run)) && CompactsRun(StepsOf(run), compacted)
    requires IsPrelude(compacted, Recorded(run), prelude) && Held(prelude, r).Some?
    requires !IsSettleTime(r) && (Replaces(compacted, Recorded(run)) ==> r != FILTER)
    ensures Held(prelude, r).value == State(initial, StepsOf(run), r)
  {
    hide Faithful, Recorded, State, Written, AllRegular, CompactsRun, Sufficient, AnalyzerRecord, RestoredStep,
         Replaces;
    var d := Recorded(run);
    assert Sufficient(compacted, d);
    OfSufficient(compacted, d);
    var i := HeldByStep(prelude, r);
    var j := PreludeOrigin(compacted, d, prelude, i);
    if Replaces(compacted, d) && Configures(prelude[i], AdvancedKey) {
      ReplacesRead(compacted, d);
      AnalyzerTellsTruth(initial, run, r);
    } else {
      EntryTellsTruth(initial, run, compacted, j, r);
    }
  }

  /**
   Recovery tells no instrument anything that it did not hold when the boundary was recorded, except perhaps the
   settling time of a source and the filter mode of an analyzer that was read; however often the run was resumed before.
   */
  lemma RecoveryTellsTruth(
    initial: map<Register, Value>, actions: seq<PlanAction>, n: nat, run: seq<Observed>, compacted: seq<Step>,
    prelude: seq<Step>, r: Register)
    requires CompiledFlow(actions) && n <= |actions| && RanTo(actions, n, run) && Faithful(initial, run)
    requires Compacts(Steps(actions[..n]), compacted) && IsPrelude(compacted, Recorded(run), prelude) && Held(prelude, r).Some?
    requires !IsSettleTime(r) && (Replaces(compacted, Recorded(run)) ==> r != FILTER)
    ensures Held(prelude, r).value == State(initial, StepsOf(run), r)
  {
    hide CompiledFlow, RanTo, Faithful, Compacts, IsPrelude, Recorded, State, Held, AllRegular, CompactsRun, Replaces;
    RunIsCompacted(actions, n, run, compacted);
    PreludeTellsTruth(initial, run, compacted, prelude, r);
  }

  // ---- What the prelude brings back ----

  /** A class that was configured has told, or the instruments have answered, something about this field. */
  predicate Reported(steps: seq<Step>, d: DeviceStates, key: Key, f: Field) {
    && HasBaseline(steps, |steps|, key)
    && match key
       case SpectrumKey =>
         f in P.ANALYZER_BASIS || (f == VbwMode && d.advanced.None? && Assigned(Replay(steps, SpectrumKey), VbwMode).Some?)
       case SgKey => true
       case AdvancedKey =>
         if d.advanced.Some? && HasBaseline(steps, |steps|, SpectrumKey)
         then f != VbwFilterMode && Tells(AdvancedKey, d.advanced.value, f) && !AutoOwned(d.advanced.value, f)
         else true
       case _ => Tells(key, d.Actual(key), f)
  }

  lemma RestoredSends(key: Key, c: Config, d: DeviceStates, f: Field)
    requires Restorable(key) && RecordOf(c, key) && c.mask.Some? && RestoredStep(Configure(key, c), d).Ok?
    requires Tells(key, d.Actual(key), f)
    ensures Sends(key, RestoredStep(Configure(key, c), d).value.config, f)
  {
    FromAnswerSends(key, c, d.Actual(key));
  }

  lemma SentIsWritten(key: Key, c: Config, f: Field, r: Register)
    requires Sends(key, c, f) && FieldAt(key, r) == Some(f)
    ensures Written(Configure(key, c), r).Some?
  {
  }

  /** A record that stays as it was compacted writes every register of its own that the run wrote. */
  lemma OwnedIsSent(steps: seq<Step>, key: Key, c: Config, f: Field, r: Register)
    requires AllRegular(steps) && EntryOfRun(steps, key, c) && Unanswered(steps, key) && FieldAt(key, r) == Some(f)
    requires Owns(steps, key, f) && Held(steps, r).Some?
    requires key.SpectrumKey? && f == VbwMode ==> Assigned(Replay(steps, key), f).Some?
    ensures Written(Configure(key, c), r).Some?
  {
    hide AllRegular, RecordOf, Writes, Replay, HasBaseline, Written, Held, Owns, Sends;
    OwnRegister(key, f, r);
    OwnedIsReplayed(steps, key, f);
    OwnedSends(steps, key, c, f);
    SentIsWritten(key, c, f, r);
  }

  /** The restored record of a class writes what was reported about it. */
  lemma EntryBringsBack(run: seq<Observed>, compacted: seq<Step>, d: DeviceStates, j: nat, f: Field, r: Register)
    requires AllRegular(StepsOf(run)) && CompactsRun(StepsOf(run), compacted) && SectionsComplete(StepsOf(run), d)
    requires Sufficient(compacted, d) && j < |compacted|
    requires Replaces(compacted, d) ==> !compacted[j].key.AdvancedKey?
    requires FieldAt(compacted[j].key, r) == Some(f) && Reported(StepsOf(run), d, compacted[j].key, f)
    requires Restorable(compacted[j].key) || Held(StepsOf(run), r).Some?
    ensures Written(RestoredAll(compacted, d)[j], r).Some?
  {
    hide RecordOf, HasBaseline, Written, Held, Tells, FieldAt, Sends, Writes, Replay, AllRegular, SectionsComplete,
         HasField;
    var key, c := compacted[j].key, compacted[j].config;
    assert EntryOfRun(StepsOf(run), key, c) && compacted[j] == Configure(key, c);
    assert RestoredStep(compacted[j], d).Ok?;
    if Restorable(key) {
      RestoredSends(key, c, d, f);
      SentIsWritten(key, RestoredStep(compacted[j], d).value.config, f, r);
    } else {
      SectionOfAnalyzer(StepsOf(run), d);
      HasKeyConfigured(StepsOf(run), compacted, SpectrumKey);
      OwnedField(StepsOf(run), d, key, f, r);
      OwnedIsSent(StepsOf(run), key, c, f, r);
      assert RestoredStep(compacted[j], d) == Ok(compacted[j]);
    }
  }

  lemma OwnedField(steps: seq<Step>, d: DeviceStates, key: Key, f: Field, r: Register)
    requires FieldAt(key, r) == Some(f) && !Restorable(key) && Reported(steps, d, key, f)
    requires HasBaseline(steps, |steps|, AdvancedKey) ==> d.advanced.Some?
    requires key.AdvancedKey? ==> !HasBaseline(steps, |steps|, SpectrumKey)
    ensures Owns(steps, key, f)
    ensures key.SpectrumKey? && f == VbwMode ==> Assigned(Replay(steps, key), f).Some?
  {
  }

  /** Some record of the prelude writes what was reported. */
  lemma PreludeBringsBack(
    run: seq<Observed>, compacted: seq<Step>, d: DeviceStates, prelude: seq<Step>, key: Key, f: Field, r: Register) returns (i: nat)
    requires AllRegular(StepsOf(run)) && CompactsRun(StepsOf(run), compacted) && SectionsComplete(StepsOf(run), d)
    requires IsPrelude(compacted, d, prelude)
    requires FieldAt(key, r) == Some(f) && Reported(StepsOf(run), d, key, f) && (Restorable(key) || Held(StepsOf(run), r).Some?)
    ensures i < |prelude| && Written(prelude[i], r).Some?
  {
    hide RecordOf, HasBaseline, Written, Held, Tells, FieldAt, AllRegular, SectionsComplete, RestoredStep,
         AnalyzerRecord, EntryOfRun, Sufficient;
    assert Sufficient(compacted, d);
    OfSufficient(compacted, d);
    HasKeyConfigured(StepsOf(run), compacted, key);
    HasKeyConfigured(StepsOf(run), compacted, SpectrumKey);
    SectionOfAnalyzer(StepsOf(run), d);
    if Replaces(compacted, d) && key.AdvancedKey? {
      AnalyzerRecordSends(d.advanced.value);
      var c := AnalyzerRecord(d.advanced.value).value;
      SentIsWritten(AdvancedKey, c, f, r);
      var m :| 0 <= m < |prelude| - 1 && prelude[m].key.SpectrumKey? && prelude[m + 1] == Configure(AdvancedKey, c);
      i := m + 1;
    } else {
      var j :| 0 <= j < |compacted| && Configures(compacted[j], key);
      EntryBringsBack(run, compacted, d, j, f, r);
      var step := RestoredAll(compacted, d)[j];
      assert step in prelude;
      i :| 0 <= i < |prelude| && prelude[i] == step;
    }
  }

  /**
   Recovery brings back everything that the run wrote and that was reported: after the prelude such a register holds
   what it held when the boundary was recorded, from whatever state the instruments are in, and however often the run
   was resumed before. The settling time of a source is spoken of below.
   */
  lemma RecoveryRestores(
    initial: map<Register, Value>, actions: seq<PlanAction>, n: nat, run: seq<Observed>, compacted: seq<Step>,
    prelude: seq<Step>, key: Key, f: Field, r: Register)
    requires CompiledFlow(actions) && n <= |actions| && RanTo(actions, n, run) && Faithful(initial, run)
    requires Compacts(Steps(actions[..n]), compacted) && IsPrelude(compacted, Recorded(run), prelude)
    requires FieldAt(key, r) == Some(f) && Reported(StepsOf(run), Recorded(run), key, f) && Held(StepsOf(run), r).Some?
    requires f != SettleTimeS
    ensures Held(prelude, r) == Held(StepsOf(run), r)
    ensures forall now: map<Register, Value> :: State(now, prelude, r) == State(initial, StepsOf(run), r)
  {
    hide CompiledFlow, RanTo, Faithful, Compacts, IsPrelude, Reported, FieldAt, Replaces, CompactsRun, AllRegular,
         Recorded, Held, Written;
    RunIsCompacted(actions, n, run, compacted);
    PreludeLeads(initial, run, compacted, prelude, key, f, r);
  }

  lemma PreludeLeads(
    initial: map<Register, Value>, run: seq<Observed>, compacted: seq<Step>, prelude: seq<Step>, key: Key, f: Field, r: Register)
    requires Faithful(initial, run) && AllRegular(StepsOf(run)) && CompactsRun(StepsOf(run), compacted)
    requires IsPrelude(compacted, Recorded(run), prelude)
    requires FieldAt(key, r) == Some(f) && Reported(StepsOf(run), Recorded(run), key, f) && Held(StepsOf(run), r).Some?
    requires f != SettleTimeS
    ensures Held(prelude, r) == Held(StepsOf(run), r)
  {
    hide Faithful, IsPrelude, Reported, FieldAt, Replaces, CompactsRun, AllRegular, Recorded, Held, Written, HasField;
    RecordedIsComplete(initial, run);
    var i := PreludeBringsBack(run, compacted, Recorded(run), prelude, key, f, r);
    WrittenIsHeld(prelude, r, i);
    ReportedIsNoFilter(StepsOf(run), compacted, Recorded(run), key, f, r);
    OwnRegister(key, f, r);
    PreludeTellsTruth(initial, run, compacted, prelude, r);
  }

  lemma ReportedIsNoFilter(steps: seq<Step>, compacted: seq<Step>, d: DeviceStates, key: Key, f: Field, r: Register)
    requires CompactsRun(steps, compacted) && FieldAt(key, r) == Some(f) && Reported(steps, d, key, f)
    ensures Replaces(compacted, d) ==> r != FILTER
  {
    hide CompactsRun;
    HasKeyConfigured(steps, compacted, SpectrumKey);
  }

  // ---- A chain of resumed runs ----

  /** One run of a chain: the state that it found the instruments in, its prelude, what it executed then, and its boundary. */
  datatype Interrupted = Interrupted(initial: map<Register, Value>, prelude: seq<Observed>, executed: seq<Observed>, stop: nat) {
    function Run(): seq<Observed> {
      prelude + executed
    }
  }

  /** The next run begins with the prelude of the last boundary, made from what the last run recorded, and goes on from there. */
  ghost predicate Resumes(actions: seq<PlanAction>, last: Interrupted, next: Interrupted) {
    && last.stop <= next.stop <= |actions|
    && PreludeOf(Steps(actions[..last.stop]), Recorded(last.Run()), StepsOf(next.prelude))
    && Took(actions[last.stop..next.stop], next.executed)
  }

  /** The first run is not resumed, every other one resumes the one before; the instruments may be in any state meanwhile. */
  ghost predicate Chain(actions: seq<PlanAction>, legs: seq<Interrupted>) {
    && legs != [] && legs[0].prelude == [] && legs[0].stop <= |actions| && Took(actions[..legs[0].stop], legs[0].executed)
    && (forall i | 0 <= i < |legs| :: Faithful(legs[i].initial, legs[i].Run()))
    && (forall i | 0 < i < |legs| :: Resumes(actions, legs[i - 1], legs[i]))
  }

  /** What the runs of a chain executed, as if one of them had done it all. */
  function Uninterrupted(legs: seq<Interrupted>): seq<Observed> {
    if legs == [] then [] else Uninterrupted(legs[..|legs| - 1]) + legs[|legs| - 1].executed
  }

  lemma ChainFront(actions: seq<PlanAction>, legs: seq<Interrupted>)
    requires Chain(actions, legs) && |legs| > 1
    ensures Chain(actions, legs[..|legs| - 1]) && Resumes(actions, legs[|legs| - 2], legs[|legs| - 1])
  {
    hide Faithful, Resumes, Took;
    var n := |legs| - 1;
    forall i | 0 < i < n ensures Resumes(actions, legs[..n][i - 1], legs[..n][i]) {
      assert legs[..n][i - 1] == legs[i - 1] && legs[..n][i] == legs[i];
    }
    assert Resumes(actions, legs[n - 1], legs[n]);
  }

  /** Every run of a chain is one that recovery can rely on. */
  lemma ChainRuns(actions: seq<PlanAction>, legs: seq<Interrupted>)
    requires Chain(actions, legs)
    ensures var last := legs[|legs| - 1]; last.stop <= |actions| && RanTo(actions, last.stop, last.Run())
  {
    hide Faithful, Took, PreludeOf, Recorded, StepOf;
    var n := |legs| - 1;
    var last := legs[n];
    if n == 0 {
      assert last.Run() == last.executed;
      FirstRun(actions, last.stop, last.executed);
    } else {
      assert Resumes(actions, legs[n - 1], last);
      assert last.Run()[..|last.prelude|] == last.prelude && last.Run()[|last.prelude|..] == last.executed;
      assert Leg(actions, legs[n - 1].stop, last.stop, Recorded(legs[n - 1].Run()), |last.prelude|, last.Run());
    }
  }

  /** The register was written and its value reported by the time of the boundary. */
  predicate BroughtBack(leg: Interrupted, key: Key, f: Field, r: Register) {
    Held(StepsOf(leg.Run()), r).Some? && Reported(StepsOf(leg.Run()), Recorded(leg.Run()), key, f)
  }

  lemma TookMore(actions: seq<PlanAction>, m: nat, n: nat, run: seq<Observed>, more: seq<Observed>)
    requires m <= n <= |actions| && Took(actions[..m], run) && Took(actions[m..n], more)
    ensures Took(actions[..n], run + more)
  {
    hide StepTaken;
    forall i | 0 <= i < n ensures StepTaken(actions[..n][i], (run + more)[i]) {
      if i < m {
        assert StepTaken(actions[..m][i], run[i]);
      } else {
        var j := i - m;
        assert StepTaken(actions[m..n][j], more[j]);
      }
    }
  }

  /**
   Interruptions leave no trace: at every boundary of a chain of resumed runs, a register that each resume could bring
   back holds what it would hold if one run had executed all the actions up to there, whatever became of the
   instruments in between.
   */
  lemma {:induction false} ChainIsUninterrupted(actions: seq<PlanAction>, legs: seq<Interrupted>, key: Key, f: Field, r: Register)
    requires CompiledFlow(actions) && Chain(actions, legs)
    requires FieldAt(key, r) == Some(f) && f != SettleTimeS
    requires forall i | 0 <= i < |legs| - 1 :: BroughtBack(legs[i], key, f, r)
    ensures var last := legs[|legs| - 1];
            && last.stop <= |actions| && Took(actions[..last.stop], Uninterrupted(legs))
            && State(last.initial, StepsOf(last.Run()), r) == State(legs[0].initial, StepsOf(Uninterrupted(legs)), r)
  {
    hide CompiledFlow, Faithful, Took, Recorded, State, Held, FieldAt, RanTo, StepOf, Compacts, IsPrelude, Reported;
    var n := |legs| - 1;
    var front, last := legs[..n], legs[n];
    if n == 0 {
      assert Uninterrupted(front) == [];
      assert Uninterrupted(legs) == last.executed == last.Run();
    } else {
      ChainFront(actions, legs);
      var prior := legs[n - 1];
      assert BroughtBack(prior, key, f, r);
      assert forall i | 0 <= i < n - 1 :: front[i] == legs[i];
      ChainIsUninterrupted(actions, front, key, f, r);
      ChainRuns(actions, front);
      TookMore(actions, prior.stop, last.stop, Uninterrupted(front), last.executed);
      LegContinues(actions, prior, last, key, f, r);
      assert StepsOf(Uninterrupted(legs)) == StepsOf(Uninterrupted(front)) + StepsOf(last.executed);
      StateConcat(legs[0].initial, StepsOf(Uninterrupted(front)), StepsOf(last.executed), r);
    }
  }

  /** One resume: what the actions after it do not write is what it was at the boundary. */
  lemma LegContinues(actions: seq<PlanAction>, prior: Interrupted, last: Interrupted, key: Key, f: Field, r: Register)
    requires CompiledFlow(actions) && prior.stop <= |actions| && RanTo(actions, prior.stop, prior.Run())
    requires Faithful(prior.initial, prior.Run()) && Resumes(actions, prior, last)
    requires FieldAt(key, r) == Some(f) && f != SettleTimeS && BroughtBack(prior, key, f, r)
    ensures State(last.initial, StepsOf(last.Run()), r) ==
            if Held(StepsOf(last.executed), r).Some? then Held(StepsOf(last.executed), r).value
            else State(prior.initial, StepsOf(prior.Run()), r)
  {
    hide CompiledFlow, Faithful, Took, Recorded, State, Held, FieldAt, RanTo, StepOf, Compacts, IsPrelude, Reported;
    var d := Recorded(prior.Run());
    var compacted :| Compacts(Steps(actions[..prior.stop]), compacted) && IsPrelude(compacted, d, StepsOf(last.prelude));
    RecoveryRestores(prior.initial, actions, prior.stop, prior.Run(), compacted, StepsOf(last.prelude), key, f, r);
    assert StepsOf(last.Run()) == StepsOf(last.prelude) + StepsOf(last.executed);
    StateConcat(last.initial, StepsOf(last.prelude), StepsOf(last.executed), r);
  }

  // ---- The filter mode ----

  lemma {:induction false} LastWrite(steps: seq<Step>, r: Register, i: nat)
    requires i < |steps| && Written(steps[i], r).Some?
    requires forall j | i < j < |steps| :: Written(steps[j], r).None?
    ensures Held(steps, r) == Written(steps[i], r)
  {
    hide Written;
    if i < |steps| - 1 {
      LastWrite(steps[..|steps| - 1], r, i);
    }
  }

  lemma FilterWriters(step: Step)
    requires Written(step, FILTER).Some?
    ensures step.key.SpectrumKey? || step.key.AdvancedKey?
  {
  }

  lemma AnalyzerRecordFilter(answer: map<Field, Value>)
    requires AnalyzerRecord(answer).Ok?
    ensures Written(Configure(AdvancedKey, AnalyzerRecord(answer).value), FILTER) == Some(answer[VbwFilterMode])
    ensures Tells(AdvancedKey, answer, VbwFilterMode)
  {
    AnalyzerRecordSends(answer);
  }

  /** Whatever the basic settings say, the filter mode ends as the analyzer reported it. */
  lemma FilterIsTheReported(compacted: seq<Step>, d: DeviceStates, prelude: seq<Step>)
    requires IsPrelude(compacted, d, prelude) && Replaces(compacted, d)
    ensures AnalyzerRecord(d.advanced.value).Ok? && Held(prelude, FILTER) == Some(d.advanced.value[VbwFilterMode])
  {
    hide RecordOf, RestoredRecord, AnalyzerRecord, Written;
    assert Sufficient(compacted, d);
    OfSufficient(compacted, d);
    AnalyzerRecordFilter(d.advanced.value);
    var c := AnalyzerRecord(d.advanced.value).value;
    var m :| 0 <= m < |prelude| - 1 && prelude[m].key.SpectrumKey? && prelude[m + 1] == Configure(AdvancedKey, c);
    var n := m + 1;
    forall j | n < j < |prelude| ensures Written(prelude[j], FILTER).None? {
      if Written(prelude[j], FILTER).Some? {
        FilterWriters(prelude[j]);
      }
    }
    LastWrite(prelude, FILTER, n);
  }

  /**
   An analyzer that was read gets its filter mode back if and only if no other one was written since it was read last,
   by an acquisition or an advanced configuration.
   */
  lemma FilterRestoredIff(
    initial: map<Register, Value>, actions: seq<PlanAction>, n: nat, run: seq<Observed>, compacted: seq<Step>, prelude: seq<Step>)
    requires CompiledFlow(actions) && RanTo(actions, n, run) && Faithful(initial, run)
    requires IsPrelude(compacted, Recorded(run), prelude) && Replaces(compacted, Recorded(run))
    ensures Held(prelude, FILTER) == Some(State(initial, StepsOf(run), FILTER)) <==>
            FilterSince(run).None? || FilterSince(run).value == Recorded(run).advanced.value[VbwFilterMode]
  {
    hide CompiledFlow, RanTo, Faithful, AllRegular, Recorded, State, Held;
    CompiledRunIsRegular(actions, n, run);
    FilterIsTheReported(compacted, Recorded(run), prelude);
    AnalyzerRecordFilter(Recorded(run).advanced.value);
    RecordedFilterIff(initial, run);
  }

  // ---- The settling time ----

  /** A restored source is told the settling time of its section. */
  lemma SettleTimeSent(key: Key, c: Config, d: DeviceStates, r: Register)
    requires key.KeithleyKey? && RecordOf(c, key) && c.mask.Some? && RestoredStep(Configure(key, c), d).Ok?
    requires r == SettleRegister(key.smu) && Written(RestoredStep(Configure(key, c), d).value, r).Some?
    ensures Written(RestoredStep(Configure(key, c), d).value, r) == Some(d.Actual(key)[SettleTimeS])
  {
    hide Tells, FromAnswer, RecordOf;
    FromAnswerSends(key, c, d.Actual(key));
    FromAnswerOk(key, c, d);
    WrittenBy(key, RestoredStep(Configure(key, c), d).value.config, r);
  }

  lemma FromAnswerOk(key: Key, c: Config, d: DeviceStates)
    requires key.KeithleyKey? && RecordOf(c, key) && c.mask.Some? && RestoredStep(Configure(key, c), d).Ok?
    ensures RestoredStep(Configure(key, c), d).value == Configure(key, FromAnswer(key, c, d.Actual(key)).value)
    ensures FromAnswer(key, c, d.Actual(key)).Ok?
  {
  }

  /** Nothing else in the prelude writes the settling time. */
  lemma HeldSettleTime(
    run: seq<Observed>, compacted: seq<Step>, d: DeviceStates, prelude: seq<Step>, s: Smu)
    requires CompactsRun(StepsOf(run), compacted) && IsPrelude(compacted, d, prelude) && Held(prelude, SettleRegister(s)).Some?
    ensures s in d.source && SettleTimeS in d.source[s] && Held(prelude, SettleRegister(s)) == Some(d.source[s][SettleTimeS])
  {
    hide Sufficient, AnalyzerRecord, RestoredStep, Replaces, RecordOf, HasBaseline, Written, Replay, Writes;
    assert Sufficient(compacted, d);
    OfSufficient(compacted, d);
    var r := SettleRegister(s);
    var i := HeldByStep(prelude, r);
    var j := PreludeOrigin(compacted, d, prelude, i);
    SettleTimeWriter(prelude[i], s);
    assert EntryOfRun(StepsOf(run), compacted[j].key, compacted[j].config);
    RestoredFrom(compacted, d, j);
    SettleTimeSent(compacted[j].key, compacted[j].config, d, r);
    SectionAnswers(KeithleyKey(s), compacted[j].config, d);
  }

  lemma SettleTimeWriter(step: Step, s: Smu)
    requires step.Configure? && Written(step, SettleRegister(s)).Some?
    ensures step.key == KeithleyKey(s)
  {
  }

  lemma SectionAnswers(key: Key, c: Config, d: DeviceStates)
    requires key.KeithleyKey? && RecordOf(c, key) && c.mask.Some? && RestoredStep(Configure(key, c), d).Ok?
    ensures key.smu in d.source && SettleTimeS in d.source[key.smu]
  {
    FromAnswerOk(key, c, d);
    assert Complete(key, d.Actual(key)) && HasField(key, SettleTimeS);
  }

  /**
   What a restored source gets as its settling time: the one that was selected for it, unless a settling-time sweep of it
   noted another one since its last setup that a later record of the source has taken along. So it gets back its own if
   and only if no such point was taken along, or the last one was that very time.
   */
  lemma SettleTimeRestoredIff(
    initial: map<Register, Value>, actions: seq<PlanAction>, n: nat, run: seq<Observed>, compacted: seq<Step>,
    prelude: seq<Step>, s: Smu)
    requires CompiledFlow(actions) && n <= |actions| && RanTo(actions, n, run) && Faithful(initial, run)
    requires Compacts(Steps(actions[..n]), compacted) && IsPrelude(compacted, Recorded(run), prelude)
    requires Reported(StepsOf(run), Recorded(run), KeithleyKey(s), SettleTimeS)
    ensures Held(prelude, SettleRegister(s)) ==
            Some(if TakenSince(run, s).Some? then Number(TakenSince(run, s).value) else State(initial, StepsOf(run), SettleRegister(s)))
    ensures Held(prelude, SettleRegister(s)) == Some(State(initial, StepsOf(run), SettleRegister(s))) <==>
            TakenSince(run, s).None? || Number(TakenSince(run, s).value) == State(initial, StepsOf(run), SettleRegister(s))
  {
    hide CompiledFlow, RanTo, Faithful, Compacts, IsPrelude, AllRegular, CompactsRun, Recorded, State, Held, Written,
         TakenSince, HasBaseline;
    RunIsCompacted(actions, n, run, compacted);
    RecordedIsComplete(initial, run);
    var r := SettleRegister(s);
    assert FieldAt(KeithleyKey(s), r) == Some(SettleTimeS);
    var i := PreludeBringsBack(run, compacted, Recorded(run), prelude, KeithleyKey(s), SettleTimeS, r);
    WrittenIsHeld(prelude, r, i);
    HeldSettleTime(run, compacted, Recorded(run), prelude, s);
    RecordedSettleTime(initial, run, s);
  }

  // ---- When recovery refuses ----

  lemma CompleteIsEnough(key: Key, c: Config, d: DeviceStates)
    requires RecordOf(c, key) && (Restorable(key) ==> c.mask.Some?)
    ensures RestoredStep(Configure(key, c), d).Ok? <==> (Restorable(key) ==> Complete(key, d.Actual(key)))
  {
    assert key.KeithleyKey? ==> HasField(key, Mode);
    assert key.RigolKey? ==> HasField(key, Waveform);
  }

  /**
   Recovery of a compiled plan whose instruments answered truly is refused exactly when a carrier was configured after its
   output path, or the analyzer did not tell its filter mode.
   */
  lemma RecoveryRefusesIff(
    initial: map<Register, Value>, actions: seq<PlanAction>, n: nat, run: seq<Observed>, compacted: seq<Step>)
    requires CompiledFlow(actions) && n <= |actions| && RanTo(actions, n, run) && Faithful(initial, run)
    requires Compacts(Steps(actions[..n]), compacted)
    ensures Accepted(Steps(actions[..n]))
    ensures Sufficient(compacted, Recorded(run)) <==>
            && (forall x | HasBaseline(StepsOf(run), |run|, RigolOutputKey(x)) :: PathStands(StepsOf(run), x))
            && (Replaces(compacted, Recorded(run)) ==> FilterKnown(Recorded(run).advanced.value))
  {
    hide CompiledFlow, RanTo, Faithful, AllRegular, Recorded, Accepted, CompactsRun, Compacts, Sufficient,
         SectionsComplete;
    RunIsCompacted(actions, n, run, compacted);
    CompactionLosesNothing(actions, n, SgKey);
    assert Steps(actions[..n]) == Steps(actions)[..n];
    RecordedIsComplete(initial, run);
    SufficientIff(StepsOf(run), compacted, Recorded(run));
  }

  lemma SufficientIff(steps: seq<Step>, compacted: seq<Step>, d: DeviceStates)
    requires CompactsRun(steps, compacted) && SectionsComplete(steps, d)
    ensures Sufficient(compacted, d) <==>
            && (forall x | HasBaseline(steps, |steps|, RigolOutputKey(x)) :: PathStands(steps, x))
            && (Replaces(compacted, d) ==> FilterKnown(d.advanced.value))
  {
    hide RecordOf, RestoredRecord, Writes, Replay, HasBaseline, PathStands, Complete, FilterKnown;
    forall j | 0 <= j < |compacted|
      ensures compacted[j].Configure? && RecordOf(compacted[j].config, compacted[j].key)
      ensures RestoredStep(compacted[j], d).Ok? <==>
              (compacted[j].key.RigolOutputKey? ==> PathStands(steps, compacted[j].key.rigol))
    {
      var key, c := compacted[j].key, compacted[j].config;
      assert EntryOfRun(steps, key, c) && compacted[j] == Configure(key, c);
      CompleteIsEnough(key, c, d);
      if Restorable(key) {
        SectionIsThere(steps, d, key);
      }
    }
    if Sufficient(compacted, d) {
      forall x | HasBaseline(steps, |steps|, RigolOutputKey(x)) ensures PathStands(steps, x) {
        assert HasKey(compacted, RigolOutputKey(x));
        var j :| 0 <= j < |compacted| && Configures(compacted[j], RigolOutputKey(x));
        assert RestoredStep(compacted[j], d).Ok?;
      }
    } else if forall x | HasBaseline(steps, |steps|, RigolOutputKey(x)) :: PathStands(steps, x) {
      forall j | 0 <= j < |compacted| ensures RestoredStep(compacted[j], d).Ok? {
        assert EntryOfRun(steps, compacted[j].key, compacted[j].config);
      }
    }
  }

  /** Of a class that was configured, the section is complete; an output path has one only while it stands. */
  lemma SectionIsThere(steps: seq<Step>, d: DeviceStates, key: Key)
    requires SectionsComplete(steps, d) && HasBaseline(steps, |steps|, key) && Restorable(key)
    ensures Complete(key, d.Actual(key)) <==> (key.RigolOutputKey? ==> PathStands(steps, key.rigol))
  {
    assert key.RigolOutputKey? ==> HasField(key, OutputLoad);
  }
}
