/**
 Recovery replays an interrupted plan as a short list of configurations: at most one per class of
 record. This module states what a list of actions means to one class, as the settings it assigns, and
 proves what the compaction keeps of that meaning and exactly when it keeps all of it.
 */
module Compaction {
  import opened Outcomes
  import opened Plan
  import opened Configurations

  /** What an action does to the register files. */
  datatype Step = Configure(key: Key, config: Config) | Update(key: Key, fields: map<Field, Value>) | NoEffect

  /** An SG update without a mask, or with an empty one, assigns both of its fields. */
  function SgUpdate(c: Config): map<Field, Value> {
    map f | f in c.values && (c.mask.None? || c.mask.value == [] || f in c.mask.value) :: c.values[f]
  }

  function StepOf(k: Kind): Step {
    match k
    case ConfigureRigol(r, c) => Configure(RigolKey(r), c)
    case ConfigureRigolOutput(r, c) => Configure(RigolOutputKey(r), c)
    case ConfigureKeithley(s, c) => Configure(KeithleyKey(s), c)
    case ConfigureAnritsu(c) => Configure(SpectrumKey, c)
    case ConfigureAnritsuAdvanced(c) => Configure(AdvancedKey, c)
    case ConfigureAnritsuSg(c) => Configure(SgKey, c)
    case UpdateKeithleyLevel(s, _, v) => Update(KeithleyKey(s), map[LevelSi := v])
    case UpdateKeithleyCompliance(s, v) => Update(KeithleyKey(s), map[ComplianceSi := v])
    case UpdateRigolFrequency(r, v) => Update(RigolKey(r), map[FrequencyHz := v])
    case UpdateRigolLevels(r, high, low) => Update(RigolKey(r), map[HighLevelV := high, LowLevelV := low])
    case UpdateAnritsuSg(c) => Update(SgKey, SgUpdate(c))
    case _ => NoEffect
  }

  function Steps(actions: seq<PlanAction>): (steps: seq<Step>)
    ensures |steps| == |actions|
  {
    seq(|actions|, i requires 0 <= i < |actions| => StepOf(actions[i].kind))
  }

  predicate StepTyped(step: Step) {
    match step
    case Configure(key, c) => RecordOf(c, key)
    case Update(key, fields) => !key.AdvancedKey? && forall f | f in fields :: HasField(key, f)
    case NoEffect => true
  }

  /** Live updates assign only carrier and source settings; every record is complete for its class. */
  predicate WellTyped(steps: seq<Step>) {
    forall i | 0 <= i < |steps| :: StepTyped(steps[i])
  }

  // ---- What actions mean: the registers they write ----

  predicate Selected(key: Key, c: Config, f: Field)
    requires f in c.values
  {
    if key.AdvancedKey? then c.values[f] != Missing else c.mask.None? || f in c.mask.value
  }

  function Writes(key: Key, c: Config): map<Field, Value> {
    map f | f in c.values && Selected(key, c, f) :: c.values[f]
  }

  /** The registers of one file that a step writes. */
  function Effect(step: Step, key: Key): map<Field, Value> {
    if step.Configure? && step.key == key then Writes(key, step.config)
    else if step.Update? && step.key == key then step.fields
    else map[]
  }

  /** All the writes of a run of steps to one register file, later ones winning: it leads from s to s + Replay(steps, key). */
  function Replay(steps: seq<Step>, key: Key): map<Field, Value> {
    if steps == [] then map[]
    else Replay(steps[..|steps| - 1], key) + Effect(steps[|steps| - 1], key)
  }

  /** The registers of one file that some configuration writes. */
  function Configured(steps: seq<Step>, key: Key): set<Field> {
    if steps == [] then {}
    else
      var last := steps[|steps| - 1];
      Configured(steps[..|steps| - 1], key) + if last.Configure? then Effect(last, key).Keys else {}
  }

  /** The registers of one file that some live update writes. */
  function Updated(steps: seq<Step>, key: Key): set<Field> {
    if steps == [] then {}
    else
      var last := steps[|steps| - 1];
      Updated(steps[..|steps| - 1], key) + if last.Update? then Effect(last, key).Keys else {}
  }

  function Restrict(m: map<Field, Value>, fields: set<Field>): map<Field, Value> {
    map f | f in m && f in fields :: m[f]
  }

  /** What a compaction can keep: the final value of every register that some configuration selected. */
  function Surviving(steps: seq<Step>, key: Key): map<Field, Value> {
    Restrict(Replay(steps, key), Configured(steps, key))
  }

  predicate Configures(step: Step, key: Key) {
    step.Configure? && step.key == key
  }

  predicate HasBaseline(steps: seq<Step>, n: nat, key: Key)
    requires n <= |steps|
  {
    exists j :: 0 <= j < n && Configures(steps[j], key)
  }

  /** Without a baseline, a patch is taken for one only if it names the fields that identify an authored setup. */
  predicate InitialPatch(key: Key, mask: seq<Field>) {
    match key
    case KeithleyKey(_) => Mode in mask
    case RigolKey(_) => Waveform in mask && FrequencyHz in mask && HighLevelV in mask && LowLevelV in mask
    case SpectrumKey => StartHz in mask && StopHz in mask && ReferenceLevelDbm in mask && Points in mask
    case RigolOutputKey(_) => true
    case _ => false
  }

  /** Step j can be folded: an update or a later patch needs an earlier configuration of the same registers. */
  predicate AcceptedAt(steps: seq<Step>, j: nat)
    requires j < |steps|
  {
    match steps[j]
    case Configure(key, c) => c.mask.None? || InitialPatch(key, c.mask.value) || HasBaseline(steps, j, key)
    case Update(key, _) => HasBaseline(steps, j, key)
    case NoEffect => true
  }

  predicate Accepted(steps: seq<Step>) {
    forall j | 0 <= j < |steps| :: AcceptedAt(steps, j)
  }

  predicate SelectsSetup(key: Key, mask: seq<Field>) {
    || (key.KeithleyKey? && Mode in mask)
    || (key.RigolKey? && forall f | f in {Waveform, FrequencyHz, HighLevelV, LowLevelV} :: f in mask)
    || (key.SpectrumKey? && SPECTRUM_BASIS <= FieldSet(mask))
    || key.RigolOutputKey?
  }

  /** The step follows a configuration of its class, or is a setup itself. */
  predicate Founded(steps: seq<Step>, j: nat)
    requires j < |steps| && !steps[j].NoEffect?
  {
    || (exists i :: 0 <= i < j && Configures(steps[i], steps[j].key))
    || (steps[j].Configure? && (steps[j].config.mask.None? || SelectsSetup(steps[j].key, steps[j].config.mask.value)))
  }

  /**
   A list can be folded if and only if every live update has an earlier configuration of its class, and so has every patch
   that is no setup of its own: of a source one that selects the mode, of a carrier or the analyzer one that selects the
   whole basis, of an output path any.
   */
  lemma AcceptedIff(steps: seq<Step>)
    ensures Accepted(steps) <==> forall j | 0 <= j < |steps| && !steps[j].NoEffect? :: Founded(steps, j)
  {
    hide Configures;
    forall j | 0 <= j < |steps| && !steps[j].NoEffect? ensures AcceptedAt(steps, j) <==> Founded(steps, j) {
    }
  }

  // ---- The merge of one configuration into the latest one ----

  function DictFromKeys(fields: seq<Field>): (r: seq<Field>)
    ensures forall f :: f in r <==> f in fields
  {
    if fields == [] then []
    else
      var front := DictFromKeys(fields[..|fields| - 1]);
      assert fields == fields[..|fields| - 1] + [fields[|fields| - 1]];
      if fields[|fields| - 1] in front then front else front + [fields[|fields| - 1]]
  }

  /** A patch laid over its baseline; the masks unite, and a complete baseline stays complete. */
  function Patched(base: Config, patch: Config): Config
    requires patch.mask.Some? && forall f | f in patch.mask.value :: f in patch.values
  {
    Config(Overlay(base.values, patch),
           if base.mask.None? then None else Some(DictFromKeys(base.mask.value + patch.mask.value)))
  }

  /** Analyzer settings laid over earlier ones: an empty value leaves the earlier one. */
  function Overlaid(base: Config, update: Config): Config {
    base.(values := base.values + map f | f in update.values && update.values[f] != Missing :: update.values[f])
  }

  lemma PatchedWrites(key: Key, base: Config, patch: Config)
    requires !key.AdvancedKey? && base.values.Keys == patch.values.Keys
    requires patch.mask.Some? && forall f | f in patch.mask.value :: f in patch.values
    ensures Patched(base, patch).values.Keys == base.values.Keys
    ensures Writes(key, Patched(base, patch)) == Writes(key, base) + Writes(key, patch)
  {
  }

  lemma OverlaidWrites(base: Config, update: Config)
    requires base.values.Keys == update.values.Keys
    ensures Overlaid(base, update).values.Keys == base.values.Keys
    ensures Writes(AdvancedKey, Overlaid(base, update)) == Writes(AdvancedKey, base) + Writes(AdvancedKey, update)
  {
  }

  /** A live update changes values but neither the fields of its baseline nor what the baseline selects. */
  lemma UpdatedWrites(key: Key, base: Config, fields: map<Field, Value>, updated: Config)
    requires !key.AdvancedKey? && RecordOf(base, key) && forall f | f in fields :: HasField(key, f)
    requires updated.values == base.values + fields && updated.mask == base.mask
    ensures RecordOf(updated, key)
    ensures Writes(key, updated) == Writes(key, base) + map f | f in Writes(key, base) && f in fields :: fields[f]
  {
  }

  lemma SameFields(key: Key, a: Config, b: Config)
    requires RecordOf(a, key) && RecordOf(b, key)
    ensures a.values.Keys == b.values.Keys
  {
    assert forall f :: f in a.values.Keys <==> f in b.values.Keys;
  }

  method Accumulate(key: Key, base: Config, update: Config) returns (merged: Config)
    requires RecordOf(base, key) && RecordOf(update, key)
    ensures RecordOf(merged, key) && (base.mask.None? ==> merged.mask.None?)
    ensures base.mask.Some? && update.mask.Some? ==> merged.mask.Some?
    ensures Writes(key, merged) == Writes(key, base) + Writes(key, update)
  {
    SameFields(key, base, update);
    if update.mask.Some? {
      PatchedWrites(key, base, update);
      merged := Patched(base, update);
      assert forall f :: f in merged.values.Keys <==> HasField(key, f);
    } else if key.AdvancedKey? {
      OverlaidWrites(base, update);
      merged := Overlaid(base, update);
      assert forall f :: f in merged.values.Keys <==> HasField(key, f);
    } else {
      merged := update;
      assert Writes(key, merged) == Writes(key, base) + Writes(key, update);
    }
  }

  // ---- The loop state ----

  datatype Entry = Entry(index: nat, config: Config)

  type Latest = map<Key, Entry>

  ghost predicate EntryFor(steps: seq<Step>, n: nat, key: Key, e: Entry)
    requires n <= |steps|
  {
    && e.index < n && Configures(steps[e.index], key)
    && RecordOf(e.config, key)
    && (key.SgKey? ==> e.config.mask.None?)
    && Writes(key, e.config) == Surviving(steps[..n], key)
    && (AllMasked(steps, n, key) ==> e.config.mask.Some?)
  }

  /** Every configuration of these registers so far is a patch. */
  predicate AllMasked(steps: seq<Step>, n: nat, key: Key)
    requires n <= |steps|
  {
    forall j | 0 <= j < n && Configures(steps[j], key) :: steps[j].config.mask.Some?
  }

  ghost predicate Folded(steps: seq<Step>, n: nat, latest: Latest)
    requires n <= |steps|
  {
    && (forall key :: key in latest <==> HasBaseline(steps, n, key))
    && (forall key | key in latest :: EntryFor(steps, n, key, latest[key]))
  }

  lemma {:induction false} ReplayedFields(steps: seq<Step>, key: Key)
    ensures Replay(steps, key).Keys == Configured(steps, key) + Updated(steps, key)
  {
    if steps != [] {
      ReplayedFields(steps[..|steps| - 1], key);
    }
  }

  lemma {:induction false} ConfiguredHasBaseline(steps: seq<Step>, key: Key)
    requires Configured(steps, key) != {}
    ensures HasBaseline(steps, |steps|, key)
  {
    var n := |steps| - 1;
    if Configures(steps[n], key) {
      assert HasBaseline(steps, |steps|, key);
    } else {
      ConfiguredHasBaseline(steps[..n], key);
      var j :| 0 <= j < n && Configures(steps[..n][j], key);
      assert Configures(steps[j], key);
    }
  }

  lemma BaselineStep(steps: seq<Step>, n: nat, key: Key)
    requires n < |steps|
    ensures HasBaseline(steps, n + 1, key) <==> HasBaseline(steps, n, key) || Configures(steps[n], key)
  {
  }

  lemma RestrictConfigured(m: map<Field, Value>, fields: set<Field>, written: map<Field, Value>)
    ensures Restrict(m + written, fields + written.Keys) == Restrict(m, fields) + written
  {
  }

  lemma RestrictUpdated(m: map<Field, Value>, fields: set<Field>, written: map<Field, Value>)
    requires fields <= m.Keys
    ensures Restrict(m + written, fields) ==
            Restrict(m, fields) + map f | f in Restrict(m, fields) && f in written :: written[f]
  {
  }

  /** One more step, seen from one register file: a configuration of it, */
  lemma SurvivingConfigured(steps: seq<Step>, n: nat, key: Key)
    requires n < |steps| && Configures(steps[n], key)
    ensures Surviving(steps[..n + 1], key) == Surviving(steps[..n], key) + Writes(key, steps[n].config)
  {
    hide Replay, Configured, Writes;
    StepUnfolds(steps, n, key);
    RestrictConfigured(Replay(steps[..n], key), Configured(steps[..n], key), Effect(steps[n], key));
  }

  /** a live update of it, */
  lemma SurvivingUpdated(steps: seq<Step>, n: nat, key: Key)
    requires n < |steps| && steps[n].Update? && steps[n].key == key
    ensures var before := Surviving(steps[..n], key);
            Surviving(steps[..n + 1], key) == before + map f | f in before && f in steps[n].fields :: steps[n].fields[f]
  {
    ReplayedFields(steps[..n], key);
    StepUnfolds(steps, n, key);
    hide Replay, Configured, HasBaseline;
    RestrictUpdated(Replay(steps[..n], key), Configured(steps[..n], key), Effect(steps[n], key));
  }

  /** or anything else. */
  lemma SurvivingUnaffected(steps: seq<Step>, n: nat, key: Key)
    requires n < |steps| && (steps[n].NoEffect? || steps[n].key != key)
    ensures Surviving(steps[..n + 1], key) == Surviving(steps[..n], key)
  {
    StepUnfolds(steps, n, key);
    hide Replay, Configured;
    assert Replay(steps[..n], key) + map[] == Replay(steps[..n], key);
  }

  lemma StepUnfolds(steps: seq<Step>, n: nat, key: Key)
    requires n < |steps|
    ensures Replay(steps[..n + 1], key) == Replay(steps[..n], key) + Effect(steps[n], key)
    ensures Configured(steps[..n + 1], key) ==
            Configured(steps[..n], key) + if steps[n].Configure? then Effect(steps[n], key).Keys else {}
  {
    assert steps[..n + 1][..n] == steps[..n];
  }

  lemma EntryUnaffected(steps: seq<Step>, n: nat, key: Key, e: Entry)
    requires n < |steps| && EntryFor(steps, n, key, e)
    requires steps[n].NoEffect? || steps[n].key != key
    ensures EntryFor(steps, n + 1, key, e)
  {
    SurvivingUnaffected(steps, n, key);
  }

  lemma NoBaselineNothingSurvives(steps: seq<Step>, n: nat, key: Key)
    requires n <= |steps| && !HasBaseline(steps, n, key)
    ensures Surviving(steps[..n], key) == map[]
  {
    forall j | 0 <= j < n ensures !Configures(steps[..n][j], key) {
      assert !Configures(steps[j], key);
    }
    if Configured(steps[..n], key) != {} {
      ConfiguredHasBaseline(steps[..n], key);
    }
  }

  /** After step n only the entry of that step's register file changes. */
  lemma FoldedStep(steps: seq<Step>, n: nat, latest: Latest, key: Key, e: Entry)
    requires n < |steps| && Folded(steps, n, latest)
    requires !steps[n].NoEffect? && steps[n].key == key
    requires steps[n].Update? ==> key in latest
    requires EntryFor(steps, n + 1, key, e)
    ensures Folded(steps, n + 1, latest[key := e])
  {
    var next := latest[key := e];
    forall other ensures other in next <==> HasBaseline(steps, n + 1, other) {
      BaselineStep(steps, n, other);
    }
    forall other | other in next && other != key ensures EntryFor(steps, n + 1, other, next[other]) {
      EntryUnaffected(steps, n, other, next[other]);
    }
  }

  lemma FoldedNoEffect(steps: seq<Step>, n: nat, latest: Latest)
    requires n < |steps| && Folded(steps, n, latest) && steps[n].NoEffect?
    ensures Folded(steps, n + 1, latest)
  {
    forall key ensures HasBaseline(steps, n + 1, key) <==> HasBaseline(steps, n, key) {
      BaselineStep(steps, n, key);
    }
    forall key | key in latest ensures EntryFor(steps, n + 1, key, latest[key]) {
      EntryUnaffected(steps, n, key, latest[key]);
    }
  }

  // ---- The compaction ----

  method FoldConfigure(steps: seq<Step>, n: nat, latest: Latest) returns (r: Result<Latest>)
    requires n < |steps| && WellTyped(steps) && Folded(steps, n, latest)
    requires steps[n].Configure?
    ensures r.Ok? <==> AcceptedAt(steps, n)
    ensures r.Ok? ==> Folded(steps, n + 1, r.value)
  {
    var Configure(key, update) := steps[n];
    SurvivingConfigured(steps, n, key);
    assert StepTyped(steps[n]);
    if key !in latest {
      if update.mask.Some? && !InitialPatch(key, update.mask.value) {
        return Err(ExecutionError);
      }
      NoBaselineNothingSurvives(steps, n, key);
      assert Writes(key, update) == map[] + Writes(key, update);
    } else {
      assert EntryFor(steps, n, key, latest[key]);
      update := Accumulate(key, latest[key].config, update);
    }
    FoldedStep(steps, n, latest, key, Entry(n, update));
    return Ok(latest[key := Entry(n, update)]);
  }

  method FoldUpdate(steps: seq<Step>, n: nat, latest: Latest) returns (r: Result<Latest>)
    requires n < |steps| && WellTyped(steps) && Folded(steps, n, latest)
    requires steps[n].Update?
    ensures r.Ok? <==> AcceptedAt(steps, n)
    ensures r.Ok? ==> Folded(steps, n + 1, r.value)
  {
    var Update(key, fields) := steps[n];
    if key !in latest {
      return Err(ExecutionError);
    }
    assert StepTyped(steps[n]) && EntryFor(steps, n, key, latest[key]);
    SurvivingUpdated(steps, n, key);
    var config := latest[key].config;
    var updated := config.(values := config.values + fields);
    if key.SgKey? {
      updated := updated.(mask := None);
    }
    UpdatedWrites(key, config, fields, updated);
    var entry := latest[key].(config := updated);
    FoldedStep(steps, n, latest, key, entry);
    return Ok(latest[key := entry]);
  }

  method FoldStep(steps: seq<Step>, n: nat, latest: Latest) returns (r: Result<Latest>)
    requires n < |steps| && WellTyped(steps) && Folded(steps, n, latest)
    ensures r.Ok? <==> AcceptedAt(steps, n)
    ensures r.Ok? ==> Folded(steps, n + 1, r.value)
  {
    match steps[n] {
      case Update(_, _) => r := FoldUpdate(steps, n, latest);
      case Configure(_, _) => r := FoldConfigure(steps, n, latest);
      case NoEffect =>
        FoldedNoEffect(steps, n, latest);
        r := Ok(latest);
    }
  }

  /** The list writes exactly one register file per action. */
  predicate OnePerKey(steps: seq<Step>) {
    && (forall i | 0 <= i < |steps| :: steps[i].Configure?)
    && (forall i, j | 0 <= i < j < |steps| :: steps[i].key != steps[j].key)
  }

  /** The entries in the order of the configurations they came from. */
  method InIndexOrder(steps: seq<Step>, latest: Latest) returns (order: seq<Key>)
    requires Folded(steps, |steps|, latest)
    ensures forall i | 0 <= i < |order| :: order[i] in latest
    ensures forall i, j | 0 <= i < j < |order| :: latest[order[i]].index < latest[order[j]].index
    ensures forall key | key in latest :: key in order
  {
    hide RecordOf, Writes, Surviving, AllMasked;
    order := [];
    for i := 0 to |steps|
      invariant forall p | 0 <= p < |order| :: order[p] in latest && latest[order[p]].index < i
      invariant forall p, q | 0 <= p < q < |order| :: latest[order[p]].index < latest[order[q]].index
      invariant forall key | key in latest && latest[key].index < i :: key in order
    {
      var step := steps[i];
      if step.Configure? && step.key in latest && latest[step.key].index == i {
        order := order + [step.key];
      }
      forall key | key in latest && latest[key].index == i ensures key in order {
        assert EntryFor(steps, |steps|, key, latest[key]);
      }
    }
  }

  function Entries(order: seq<Key>, latest: Latest): (steps: seq<Step>)
    requires forall i | 0 <= i < |order| :: order[i] in latest
    ensures |steps| == |order|
    ensures forall i | 0 <= i < |order| :: steps[i] == Configure(order[i], latest[order[i]].config)
  {
    seq(|order|, i requires 0 <= i < |order| => Configure(order[i], latest[order[i]].config))
  }

  lemma {:induction false} ReplayNone(steps: seq<Step>, key: Key)
    requires forall j | 0 <= j < |steps| :: steps[j].Configure? && steps[j].key != key
    ensures Replay(steps, key) == map[]
  {
    if steps != [] {
      ReplayNone(steps[..|steps| - 1], key);
      assert Effect(steps[|steps| - 1], key) == map[];
    }
  }

  lemma {:induction false} ReplayConcat(a: seq<Step>, b: seq<Step>, key: Key)
    ensures Replay(a + b, key) == Replay(a, key) + Replay(b, key)
  {
    hide Effect;
    if b == [] {
      assert a + b == a;
    } else {
      var n, both := |b| - 1, a + b;
      assert both[..|both| - 1] == a + b[..n] && both[|both| - 1] == b[n];
      ReplayConcat(a, b[..n], key);
      WritesAssociate(Replay(a, key), Replay(b[..n], key), Effect(b[n], key));
    }
  }

  lemma WritesAssociate(x: map<Field, Value>, y: map<Field, Value>, z: map<Field, Value>)
    ensures (x + y) + z == x + (y + z)
  {
  }

  lemma BaselineConcat(a: seq<Step>, b: seq<Step>, key: Key)
    ensures HasBaseline(a + b, |a + b|, key) <==> HasBaseline(a, |a|, key) || HasBaseline(b, |b|, key)
  {
    var both := a + b;
    if HasBaseline(both, |both|, key) {
      var i :| 0 <= i < |both| && Configures(both[i], key);
      assert Configures(if i < |a| then a[i] else b[i - |a|], key);
    }
    if HasBaseline(a, |a|, key) {
      var i :| 0 <= i < |a| && Configures(a[i], key);
      assert Configures(both[i], key);
    }
    if HasBaseline(b, |b|, key) {
      var i :| 0 <= i < |b| && Configures(b[i], key);
      var n := |a| + i;
      assert Configures(both[n], key);
    }
  }

  lemma {:induction false} ReplayOnce(steps: seq<Step>, key: Key, i: nat)
    requires i < |steps| && forall j | 0 <= j < |steps| :: steps[j].Configure? && (steps[j].key == key <==> j == i)
    ensures Replay(steps, key) == Writes(key, steps[i].config)
  {
    hide Writes;
    var n := |steps| - 1;
    if i == n {
      ReplayNone(steps[..n], key);
    } else {
      ReplayOnce(steps[..n], key, i);
      assert Effect(steps[n], key) == map[];
    }
  }

  lemma ReplayEntries(order: seq<Key>, latest: Latest, key: Key)
    requires forall i | 0 <= i < |order| :: order[i] in latest
    requires forall i, j | 0 <= i < j < |order| :: order[i] != order[j]
    ensures Replay(Entries(order, latest), key) == if key in order then Writes(key, latest[key].config) else map[]
  {
    hide Writes, Replay;
    if key in order {
      var i :| 0 <= i < |order| && order[i] == key;
      ReplayOnce(Entries(order, latest), key, i);
    } else {
      ReplayNone(Entries(order, latest), key);
    }
  }

  /** The positions the compacted configurations come from, in plan order. */
  ghost predicate InPlanOrder(steps: seq<Step>, order: seq<Key>, latest: Latest) {
    && (forall i | 0 <= i < |order| ::
          order[i] in latest && latest[order[i]].index < |steps| && Configures(steps[latest[order[i]].index], order[i]))
    && (forall i, j | 0 <= i < j < |order| :: latest[order[i]].index < latest[order[j]].index)
  }

  /**
   The compacted list: for every record class that was configured exactly one record, which writes the final value of
   every register that some configuration selected, and is a patch if all of them were.
   */
  ghost predicate Compacts(steps: seq<Step>, compacted: seq<Step>) {
    && OnePerKey(compacted)
    && (forall i | 0 <= i < |compacted| :: EntryOf(steps, compacted[i].key, compacted[i].config))
    && forall key | HasBaseline(steps, |steps|, key) :: exists i :: 0 <= i < |compacted| && Configures(compacted[i], key)
  }

  ghost predicate EntryOf(steps: seq<Step>, key: Key, c: Config) {
    && HasBaseline(steps, |steps|, key) && RecordOf(c, key)
    && Writes(key, c) == Surviving(steps, key)
    && (AllMasked(steps, |steps|, key) ==> c.mask.Some?) && (key.SgKey? ==> c.mask.None?)
  }

  lemma EntriesCompact(steps: seq<Step>, order: seq<Key>, latest: Latest)
    requires Folded(steps, |steps|, latest)
    requires forall i | 0 <= i < |order| :: order[i] in latest
    requires forall i, j | 0 <= i < j < |order| :: latest[order[i]].index < latest[order[j]].index
    requires forall key | key in latest :: key in order
    ensures Compacts(steps, Entries(order, latest))
  {
    hide RecordOf, Writes, Surviving, AllMasked, HasBaseline;
    var entries := Entries(order, latest);
    forall i | 0 <= i < |entries| ensures EntryOf(steps, entries[i].key, entries[i].config) {
      assert EntryFor(steps, |steps|, order[i], latest[order[i]]);
      assert steps[..|steps|] == steps;
    }
    forall key | HasBaseline(steps, |steps|, key) ensures exists i :: 0 <= i < |entries| && Configures(entries[i], key) {
      var i :| 0 <= i < |order| && order[i] == key;
      assert Configures(entries[i], key);
    }
  }

  lemma CompactedMeaning(steps: seq<Step>, order: seq<Key>, latest: Latest)
    requires Folded(steps, |steps|, latest)
    requires forall i | 0 <= i < |order| :: order[i] in latest
    requires forall i, j | 0 <= i < j < |order| :: latest[order[i]].index < latest[order[j]].index
    requires forall key | key in latest :: key in order
    ensures InPlanOrder(steps, order, latest) && OnePerKey(Entries(order, latest))
    ensures forall key :: Replay(Entries(order, latest), key) == Surviving(steps, key)
  {
    hide Writes, RecordOf, AllMasked;
    assert steps[..|steps|] == steps;
    forall i | 0 <= i < |order| ensures EntryFor(steps, |steps|, order[i], latest[order[i]]) {
    }
    forall key ensures Replay(Entries(order, latest), key) == Surviving(steps, key) {
      ReplayEntries(order, latest, key);
      if key in latest {
        assert EntryFor(steps, |steps|, key, latest[key]);
      } else {
        NoBaselineNothingSurvives(steps, |steps|, key);
      }
    }
  }

  /** The latest configuration of every register file after the whole prefix. */
  method Compact(steps: seq<Step>) returns (r: Result<Latest>)
    requires WellTyped(steps)
    ensures r.Ok? <==> Accepted(steps)
    ensures r.Ok? ==> Folded(steps, |steps|, r.value)
  {
    var latest: Latest := map[];
    for n := 0 to |steps|
      invariant forall j | 0 <= j < n :: AcceptedAt(steps, j)
      invariant Folded(steps, n, latest)
    {
      var next := FoldStep(steps, n, latest);
      if next.Err? {
        return Err(ExecutionError);
      }
      latest := next.value;
    }
    return Ok(latest);
  }

  lemma StepOfConfigured(k: Kind, key: Key, c: Config)
    requires Configures(StepOf(k), key)
    ensures StepOf(k.(config := c)) == Configure(key, c)
  {
  }

  /** The plan's own actions at those positions, with the merged records. */
  method PreludeActions(actions: seq<PlanAction>, order: seq<Key>, latest: Latest)
    returns (prelude: seq<PlanAction>, ghost sources: seq<nat>)
    requires InPlanOrder(Steps(actions), order, latest)
    ensures Steps(prelude) == Entries(order, latest)
    ensures TakenFrom(prelude, sources, actions)
  {
    prelude, sources := [], [];
    for i := 0 to |order|
      invariant |prelude| == |sources| == i
      invariant forall p | 0 <= p < i :: StepOf(prelude[p].kind) == Entries(order, latest)[p]
      invariant forall p | 0 <= p < i ::
                  sources[p] == latest[order[p]].index && prelude[p].nodeId == actions[sources[p]].nodeId
    {
      var entry := latest[order[i]];
      var action := actions[entry.index];
      StepOfConfigured(action.kind, order[i], entry.config);
      prelude := prelude + [action.(kind := action.kind.(config := entry.config))];
      sources := sources + [entry.index];
    }
  }

  ghost predicate TakenFrom(prelude: seq<PlanAction>, sources: seq<nat>, actions: seq<PlanAction>) {
    && |sources| == |prelude| && (forall i | 0 <= i < |sources| :: sources[i] < |actions|)
    && (forall i, j | 0 <= i < j < |sources| :: sources[i] < sources[j])
    && forall i | 0 <= i < |sources| :: prelude[i].nodeId == actions[sources[i]].nodeId
  }

  /**
   The first stage of the configuration prelude of an interrupted run. It fails exactly when an update or a later patch has
   no baseline, and otherwise it keeps the final value of every register that some configuration selected.
   Its actions are those at the positions in `sources`, in plan order, with merged records.
   */
  method CompactedPrelude(plan: ExecutionPlan, nextActionIndex: nat)
    returns (r: Result<seq<PlanAction>>, ghost sources: seq<nat>)
    requires nextActionIndex <= |plan.actions| && WellTyped(Steps(plan.actions[..nextActionIndex]))
    ensures r.Ok? <==> Accepted(Steps(plan.actions[..nextActionIndex]))
    ensures r.Ok? ==> Compacts(Steps(plan.actions[..nextActionIndex]), Steps(r.value))
    ensures r.Ok? ==> TakenFrom(r.value, sources, plan.actions[..nextActionIndex])
    ensures r.Ok? ==> forall key :: Replay(Steps(r.value), key) == Surviving(Steps(plan.actions[..nextActionIndex]), key)
  {
    sources := [];
    var actions := plan.actions[..nextActionIndex];
    var steps := Steps(actions);
    var latest := Compact(steps);
    if latest.Err? {
      return Err(ExecutionError), sources;
    }
    var order := InIndexOrder(steps, latest.value);
    CompactedMeaning(steps, order, latest.value);
    EntriesCompact(steps, order, latest.value);
    var prelude: seq<PlanAction>;
    prelude, sources := PreludeActions(actions, order, latest.value);
    return Ok(prelude), sources;
  }

  // ---- When nothing is lost ----

  /**
   The compacted list leads every state of a register file to the same state as the whole prefix
   exactly when every register that a live update writes is also selected by some configuration.
   */
  lemma CompactionPreservesAllStateIff(steps: seq<Step>, key: Key)
    ensures (forall s: map<Field, Value> :: s + Surviving(steps, key) == s + Replay(steps, key)) <==>
            Updated(steps, key) <= Configured(steps, key)
  {
    ReplayedFields(steps, key);
    var kept, all := Surviving(steps, key), Replay(steps, key);
    if Updated(steps, key) <= Configured(steps, key) {
      assert kept == all;
    }
    if forall s: map<Field, Value> :: s + kept == s + all {
      var empty: map<Field, Value> := map[];
      assert empty + kept == empty + all;
      assert kept == empty + kept && all == empty + all;
    }
  }

  /** On the registers it writes, the compacted list always agrees with the whole prefix. */
  lemma CompactionAgreesWhereItWrites(steps: seq<Step>, key: Key, s: map<Field, Value>, f: Field)
    requires f in Configured(steps, key)
    ensures f in Surviving(steps, key) && (s + Surviving(steps, key))[f] == (s + Replay(steps, key))[f]
  {
    ReplayedFields(steps, key);
  }

  lemma AcceptedPrefix(steps: seq<Step>, n: nat)
    requires n <= |steps| && Accepted(steps)
    ensures Accepted(steps[..n])
  {
    forall j | 0 <= j < n ensures AcceptedAt(steps[..n], j) {
      assert AcceptedAt(steps, j);
      if !steps[j].NoEffect? && HasBaseline(steps, j, steps[j].key) {
        var i :| 0 <= i < j && Configures(steps[i], steps[j].key);
        assert Configures(steps[..n][i], steps[j].key);
      }
    }
  }

  /** The settings that live updates of a running plan move. */
  predicate LiveSetting(key: Key, f: Field) {
    match key
    case KeithleyKey(_) => f.LevelSi? || f.ComplianceSi?
    case RigolKey(_) => f.FrequencyHz? || f.HighLevelV? || f.LowLevelV?
    case SgKey => f.FrequencyHz? || f.PowerDbm?
    case _ => false
  }

  predicate UpdatesAreLive(steps: seq<Step>) {
    forall i, f | 0 <= i < |steps| && steps[i].Update? && f in steps[i].fields :: LiveSetting(steps[i].key, f)
  }

  lemma PlansUpdateLiveSettings(actions: seq<PlanAction>)
    requires forall a | a in actions && a.kind.UpdateAnritsuSg? :: RecordOf(a.kind.config, SgKey)
    ensures UpdatesAreLive(Steps(actions))
  {
    var steps := Steps(actions);
    forall i, f | 0 <= i < |steps| && steps[i].Update? && f in steps[i].fields ensures LiveSetting(steps[i].key, f) {
      assert actions[i] in actions;
      UpdateIsLive(actions[i].kind, f);
    }
  }

  lemma UpdateIsLive(k: Kind, f: Field)
    requires StepOf(k).Update? && f in StepOf(k).fields
    requires k.UpdateAnritsuSg? ==> RecordOf(k.config, SgKey)
    ensures LiveSetting(StepOf(k).key, f)
  {
    if k.UpdateAnritsuSg? {
      assert HasField(SgKey, f);
    }
  }
}
