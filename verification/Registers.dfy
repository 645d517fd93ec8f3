/**
 The registers of the instruments that configuration records write. Records of different classes share some of them:
 a carrier and its output path the load, the basic and the advanced analyzer settings the filter mode.
 */
module Registers {
  import opened Outcomes
  import opened Plan
  import opened Configurations
  import opened Compaction

  datatype Register =
    | SourceReg(smu: Smu, field: Field)
    | CarrierReg(rigol: RigolChannel, field: Field)
    | AnalyzerReg(field: Field)
    | GeneratorReg(field: Field)

  /**
   The field of a record class that stands for a register. The Video/Power filter mode is called vbw_mode in the basic
   analyzer record, whose own bandwidth settings no patch can select.
   */
  function FieldAt(key: Key, r: Register): Option<Field> {
    match r
    case SourceReg(s, f) => if key == KeithleyKey(s) && HasField(key, f) then Some(f) else None
    case CarrierReg(x, f) => if (key == RigolKey(x) || key == RigolOutputKey(x)) && HasField(key, f) then Some(f) else None
    case AnalyzerReg(f) =>
      if key.SpectrumKey? && f == VbwFilterMode then Some(VbwMode)
      else if key.SpectrumKey? && f != VbwMode && HasField(key, f) then Some(f)
      else if key.AdvancedKey? && HasField(key, f) then Some(f)
      else None
    case GeneratorReg(f) => if key.SgKey? && HasField(key, f) then Some(f) else None
  }

  /** The register that a field of these classes stands for. */
  function RegisterOf(key: Key, f: Field): Register {
    match key
    case KeithleyKey(s) => SourceReg(s, f)
    case RigolKey(x) => CarrierReg(x, f)
    case RigolOutputKey(x) => CarrierReg(x, f)
    case SpectrumKey => AnalyzerReg(if f == VbwMode then VbwFilterMode else f)
    case AdvancedKey => AnalyzerReg(f)
    case SgKey => GeneratorReg(f)
  }

  predicate SourceOnly(f: Field) {
    f.LevelSi? || f.ComplianceSi? || f.SourceAutorange? || f.SourceRangeSi?
  }

  /** These values tell the instrument something about a field: an empty value does not, nor a source setting when measuring alone. */
  predicate Tells(key: Key, values: map<Field, Value>, f: Field) {
    && f in values && HasField(key, f) && values[f] != Missing
    && !(key.KeithleyKey? && SourceOnly(f) && Mode in values && values[Mode] == MEASURE_ONLY)
  }

  predicate Sends(key: Key, c: Config, f: Field) {
    Tells(key, c.values, f) && (c.mask.None? || f in c.mask.value)
  }

  /** What a step writes to a register. */
  function Written(step: Step, r: Register): Option<Value> {
    match step
    case NoEffect => None
    case Configure(key, c) =>
      var f := FieldAt(key, r);
      if f.Some? && Sends(key, c, f.value) then Some(c.values[f.value]) else None
    case Update(key, fields) =>
      var f := FieldAt(key, r);
      if f.Some? && f.value in fields && fields[f.value] != Missing then Some(fields[f.value]) else None
  }

  /** The last value that a run of steps wrote to a register. */
  function Held(steps: seq<Step>, r: Register): Option<Value> {
    if steps == [] then None
    else
      var w := Written(steps[|steps| - 1], r);
      if w.Some? then w else Held(steps[..|steps| - 1], r)
  }

  /** What a register holds after a run of steps from an initial state. */
  function State(initial: map<Register, Value>, steps: seq<Step>, r: Register): Value {
    var h := Held(steps, r);
    if h.Some? then h.value else if r in initial then initial[r] else Missing
  }

  lemma StateStep(initial: map<Register, Value>, steps: seq<Step>, step: Step, r: Register)
    ensures Held(steps + [step], r) == if Written(step, r).Some? then Written(step, r) else Held(steps, r)
    ensures State(initial, steps + [step], r) ==
            if Written(step, r).Some? then Written(step, r).value else State(initial, steps, r)
  {
    assert (steps + [step])[..|steps|] == steps;
  }

  lemma {:induction false} StateConcat(initial: map<Register, Value>, a: seq<Step>, b: seq<Step>, r: Register)
    ensures State(initial, a + b, r) == if Held(b, r).Some? then Held(b, r).value else State(initial, a, r)
  {
    hide Written;
    if b == [] {
      assert a + b == a;
    } else {
      var n := |b| - 1;
      assert a + b == a + b[..n] + [b[n]];
      StateStep(initial, a + b[..n], b[n], r);
      StateConcat(initial, a, b[..n], r);
    }
  }

  lemma {:induction false} HeldByStep(steps: seq<Step>, r: Register) returns (i: nat)
    requires Held(steps, r).Some?
    ensures i < |steps| && Written(steps[i], r) == Held(steps, r)
  {
    hide Written;
    var n := |steps| - 1;
    if Written(steps[n], r).Some? {
      i := n;
    } else {
      i := HeldByStep(steps[..n], r);
    }
  }

  lemma {:induction false} WrittenIsHeld(steps: seq<Step>, r: Register, i: nat)
    requires i < |steps| && Written(steps[i], r).Some?
    ensures Held(steps, r).Some?
  {
    hide Written;
    if i < |steps| - 1 {
      WrittenIsHeld(steps[..|steps| - 1], r, i);
    }
  }

  /** The registers of different instruments, and of different fields, are different. */
  lemma OwnRegister(key: Key, f: Field, r: Register)
    requires FieldAt(key, r) == Some(f)
    ensures HasField(key, f) && r == RegisterOf(key, f)
  {
  }

  // ---- Registers with one owner ----

  /** Nothing but one field of one record class writes this register. */
  predicate OnlyWriter(steps: seq<Step>, key: Key, f: Field, r: Register) {
    forall i | 0 <= i < |steps| :: Written(steps[i], r) == Assigned(Effect(steps[i], key), f)
  }

  function Assigned(m: map<Field, Value>, f: Field): Option<Value> {
    if f in m && m[f] != Missing then Some(m[f]) else None
  }

  predicate NeverEmpty(steps: seq<Step>, key: Key, f: Field) {
    forall i | 0 <= i < |steps| && f in Effect(steps[i], key) :: Effect(steps[i], key)[f] != Missing
  }

  lemma OnlyWriterFront(steps: seq<Step>, key: Key, f: Field, r: Register)
    requires steps != [] && OnlyWriter(steps, key, f, r)
    ensures OnlyWriter(steps[..|steps| - 1], key, f, r)
    ensures NeverEmpty(steps, key, f) ==> NeverEmpty(steps[..|steps| - 1], key, f)
    ensures Written(steps[|steps| - 1], r) == Assigned(Effect(steps[|steps| - 1], key), f)
  {
    hide Written, Effect, Assigned;
  }

  lemma AssignedOver(m: map<Field, Value>, e: map<Field, Value>, f: Field)
    ensures Assigned(m + e, f) == if f in e then Assigned(e, f) else Assigned(m, f)
  {
  }

  /** Such a register holds what the replay of the class says, unless the last value is an empty one. */
  lemma {:induction false} HeldIsReplay(steps: seq<Step>, key: Key, f: Field, r: Register)
    requires OnlyWriter(steps, key, f, r)
    ensures Assigned(Replay(steps, key), f).Some? ==> Held(steps, r) == Assigned(Replay(steps, key), f)
    ensures NeverEmpty(steps, key, f) ==> Held(steps, r) == Assigned(Replay(steps, key), f)
  {
    hide Written, Effect, OnlyWriter;
    if steps != [] {
      var n := |steps| - 1;
      OnlyWriterFront(steps, key, f, r);
      HeldIsReplay(steps[..n], key, f, r);
      AssignedOver(Replay(steps[..n], key), Effect(steps[n], key), f);
    }
  }
}
