/**
 MOKE voltage trajectories. Compilation collects the voltages of a segment in one plan, which its configuration carries
 and its arm action repeats as a permission; the runner refuses to arm or to move without it. Plans are written back into the list of
 actions in place, when the segment they belong to is complete.
 */
module MokeTrajectories {
  import opened Outcomes
  import opened Plan
  import opened RunLedger

  // ---- The DAC ----

  const MIDDLE := 32768
  const LAST_CODE := 65535

  /** The voltage of a 16-bit code. */
  function DecodeVoltage(code: int): real {
    var s := code - MIDDLE;
    10.0 * s as real / (if s >= 0 then 32767.0 else 32768.0)
  }

  /** Rounds to the nearest integer, ties to even. */
  function Round(x: real): int {
    var low := x.Floor;
    var rest := x - low as real;
    if rest < 0.5 || (rest == 0.5 && low % 2 == 0) then low else low + 1
  }

  function EncodeVoltage(v: real): int {
    Max(0, Min(LAST_CODE, Round(MIDDLE as real + (if v >= 0.0 then 3276.7 else 3276.8) * v)))
  }

  predicate Within(minimumV: real, v: real, maximumV: real) {
    minimumV <= v <= maximumV
  }

  /** The DAC voltage for a target: the nearest one, or its neighbour inward when that leaves the working range. */
  function AppliedVoltage(minimumV: real, maximumV: real, v: real): Option<real> {
    if !Within(minimumV, v, maximumV) || !Within(-10.0, v, 10.0) then None
    else
      var code := EncodeVoltage(v);
      var inward := if DecodeVoltage(code) < minimumV then code + 1 else if DecodeVoltage(code) > maximumV then code - 1 else code;
      if Within(minimumV, DecodeVoltage(inward), maximumV) then Some(DecodeVoltage(inward)) else None
  }

  lemma DecodeIncreases(c: int, d: int)
    requires c < d
    ensures DecodeVoltage(c) < DecodeVoltage(d)
  {
  }

  /** The nearest code lies between its neighbours' voltages. */
  lemma NearestCode(v: real)
    requires Within(-10.0, v, 10.0)
    ensures 0 <= EncodeVoltage(v) <= LAST_CODE
    ensures DecodeVoltage(EncodeVoltage(v) - 1) < v < DecodeVoltage(EncodeVoltage(v) + 1)
  {
    var x := MIDDLE as real + (if v >= 0.0 then 3276.7 else 3276.8) * v;
    assert 0.0 <= x <= LAST_CODE as real;
    assert Round(x) as real - 0.5 <= x <= Round(x) as real + 0.5;
    assert EncodeVoltage(v) == Round(x);
  }

  /**
   A target in the working range has a DAC voltage exactly when some code lies in that range, and rounding never
   leaves the range.
   */
  lemma AppliedVoltageExists(minimumV: real, maximumV: real, v: real)
    requires -10.0 <= minimumV <= v <= maximumV <= 10.0
    ensures AppliedVoltage(minimumV, maximumV, v).Some? <==>
            exists code :: 0 <= code <= LAST_CODE && Within(minimumV, DecodeVoltage(code), maximumV)
    ensures AppliedVoltage(minimumV, maximumV, v).Some? ==> Within(minimumV, AppliedVoltage(minimumV, maximumV, v).value, maximumV)
  {
    NearestCode(v);
    var c := EncodeVoltage(v);
    assert DecodeVoltage(0) == -10.0 && DecodeVoltage(LAST_CODE) == 10.0;
    if AppliedVoltage(minimumV, maximumV, v).None? {
      forall code | 0 <= code <= LAST_CODE ensures !Within(minimumV, DecodeVoltage(code), maximumV) {
        if code < c {
          DecodeIncreases(code, c);
        } else if code > c {
          DecodeIncreases(c, code);
        }
        if code < c - 1 {
          DecodeIncreases(code, c - 1);
        } else if code > c + 1 {
          DecodeIncreases(c + 1, code);
        }
      }
    } else {
      var inward := if DecodeVoltage(c) < minimumV then c + 1 else if DecodeVoltage(c) > maximumV then c - 1 else c;
      assert 0 <= inward <= LAST_CODE;
    }
  }

  function Distance(a: real, b: real): real {
    if a < b then b - a else a - b
  }

  /** A voltage that the DAC can give within the working range, and none of those is nearer to the target. */
  ghost predicate NearestDac(minimumV: real, maximumV: real, v: real, appliedV: real) {
    && (exists code :: 0 <= code <= LAST_CODE && DecodeVoltage(code) == appliedV)
    && minimumV <= appliedV <= maximumV
    && forall code | 0 <= code <= LAST_CODE && minimumV <= DecodeVoltage(code) <= maximumV ::
         Distance(appliedV, v) <= Distance(DecodeVoltage(code), v)
  }

  /** The codes span the range of the DAC in order, with 0 V in the middle. */
  lemma CodesSpanTheRange(c: int, d: int)
    ensures DecodeVoltage(0) == -10.0 && DecodeVoltage(MIDDLE) == 0.0 && DecodeVoltage(LAST_CODE) == 10.0
    ensures c < d <==> DecodeVoltage(c) < DecodeVoltage(d)
  {
    if c < d {
      DecodeIncreases(c, d);
    } else if d < c {
      DecodeIncreases(d, c);
    }
  }

  /** No code is nearer to a voltage than the one it is encoded by. */
  lemma EncodedIsNearest(v: real, code: int)
    requires Within(-10.0, v, 10.0)
    ensures Distance(DecodeVoltage(EncodeVoltage(v)), v) <= Distance(DecodeVoltage(code), v)
  {
    var c := EncodeVoltage(v);
    NearestCode(v);
    EncodedIsHalfway(v);
    if code > c + 1 {
      DecodeIncreases(c + 1, code);
    } else if code < c - 1 {
      DecodeIncreases(code, c - 1);
    }
  }

  /** It is at least as near as its two neighbours. */
  lemma EncodedIsHalfway(v: real)
    requires Within(-10.0, v, 10.0)
    ensures var c := EncodeVoltage(v);
            && Distance(DecodeVoltage(c), v) <= DecodeVoltage(c + 1) - v
            && Distance(DecodeVoltage(c), v) <= v - DecodeVoltage(c - 1)
  {
    var x := MIDDLE as real + (if v >= 0.0 then 3276.7 else 3276.8) * v;
    assert 0.0 <= x <= LAST_CODE as real;
    assert Round(x) as real - 0.5 <= x <= Round(x) as real + 0.5;
    assert EncodeVoltage(v) == Round(x);
  }

  /** The applied voltage is the nearest one that the DAC can give within the working range. */
  lemma AppliedVoltageIsNearest(minimumV: real, maximumV: real, v: real)
    requires AppliedVoltage(minimumV, maximumV, v).Some?
    ensures NearestDac(minimumV, maximumV, v, AppliedVoltage(minimumV, maximumV, v).value)
  {
    hide EncodeVoltage, DecodeVoltage;
    var c := EncodeVoltage(v);
    NearestCode(v);
    var inward := if DecodeVoltage(c) < minimumV then c + 1 else if DecodeVoltage(c) > maximumV then c - 1 else c;
    CodesSpanTheRange(LAST_CODE, inward);
    CodesSpanTheRange(inward, 0);
    forall code | 0 <= code <= LAST_CODE && minimumV <= DecodeVoltage(code) <= maximumV
      ensures Distance(DecodeVoltage(inward), v) <= Distance(DecodeVoltage(code), v)
    {
      EncodedIsNearest(v, code);
      CodesSpanTheRange(code, c);
      CodesSpanTheRange(c, code);
      CodesSpanTheRange(code, inward);
      CodesSpanTheRange(inward, code);
    }
  }

  // ---- Segments of a list of actions ----

  /** What an action is to a trajectory. */
  datatype Role = Opens | Arms | Moves | Stops | Bystander

  function RoleOf(k: Kind): Role {
    match k
    case ConfigureMokeBox(_, _, _, _) => Opens
    case ArmMokeVoltage(_) => Arms
    case UpdateMokeVoltage(_, _, _, _) => Moves
    case StopMokeVoltage(_, _) => Stops
    case _ => Bystander
  }

  predicate Breaks(r: Role) {
    r.Opens? || r.Stops?
  }

  predicate NoBreak(s: seq<PlanAction>, lo: int, hi: int)
    requires 0 <= lo && hi <= |s|
  {
    forall j | lo <= j < hi :: !Breaks(RoleOf(s[j].kind))
  }

  /** Position i lies in the segment opened at c, or ends it. */
  predicate InSegment(s: seq<PlanAction>, c: int, i: int)
    requires i <= |s|
  {
    0 <= c < i && RoleOf(s[c].kind).Opens? && NoBreak(s, c + 1, i)
  }

  predicate ArmedIn(s: seq<PlanAction>, c: int, i: int, r: int)
    requires 0 <= c && i <= |s|
  {
    c < r < i && RoleOf(s[r].kind).Arms?
  }

  /** The voltages of the moves in a range of positions, in order. */
  function Voltages(s: seq<PlanAction>, lo: int, hi: int): seq<real>
    requires 0 <= lo <= hi <= |s|
    decreases hi - lo
  {
    if lo == hi then []
    else Voltages(s, lo, hi - 1) + if RoleOf(s[hi - 1].kind).Moves? then [s[hi - 1].kind.voltageV] else []
  }

  function PlanFor(s: seq<PlanAction>, c: int, i: int): MokePlan
    requires 0 <= c < i <= |s| && RoleOf(s[c].kind).Opens?
  {
    var k := s[c].kind;
    MokePlan(k.profile.fingerprint, k.profile.vout, k.minimumV, k.maximumV, Voltages(s, c + 1, i))
  }

  const MOST_TARGETS := 100000

  predicate ValidPlan(p: MokePlan, profile: MokeProfile) {
    && p.fingerprint == profile.fingerprint && p.vout == profile.vout
    && profile.minimumV <= p.minimumV < p.maximumV <= profile.maximumV
    && 1 <= |p.targetsV| <= MOST_TARGETS
    && forall i | 0 <= i < |p.targetsV| :: AppliedVoltage(p.minimumV, p.maximumV, p.targetsV[i]).Some?
  }

  /** A segment may end at i: it was armed and has valid targets. */
  predicate Complete(s: seq<PlanAction>, c: int, i: int)
    requires i <= |s| && InSegment(s, c, i)
  {
    (exists r :: c < r < i && ArmedIn(s, c, i, r)) && ValidPlan(PlanFor(s, c, i), s[c].kind.profile)
  }

  /** The rules at one position; position |s| is the end of the list. */
  predicate LegalAt(s: seq<PlanAction>, i: int)
    requires 0 <= i <= |s|
  {
    && (i == |s| || Breaks(RoleOf(s[i].kind)) ==> forall c | 0 <= c < i && InSegment(s, c, i) :: Complete(s, c, i))
    && (i < |s| && RoleOf(s[i].kind).Arms? ==>
          exists c :: 0 <= c < i && InSegment(s, c, i) && forall r | c < r < i :: !ArmedIn(s, c, i, r))
    && (i < |s| && RoleOf(s[i].kind).Moves? ==>
          exists c :: 0 <= c < i && InSegment(s, c, i) && s[i].kind.vout == s[c].kind.profile.vout
                      && exists r :: c < r < i && ArmedIn(s, c, i, r))
  }

  predicate Legal(s: seq<PlanAction>) {
    forall i | 0 <= i <= |s| :: LegalAt(s, i)
  }

  lemma OneSegment(s: seq<PlanAction>, c: int, d: int, i: int)
    requires 0 <= i <= |s| && InSegment(s, c, i) && InSegment(s, d, i)
    ensures c == d
  {
  }

  // ---- Preparation ----

  /** What preparation makes of the action at j, when it lies in the complete segment from c to e. */
  function Bound(s: seq<PlanAction>, c: int, e: int, j: int): PlanAction
    requires 0 <= c <= j < e <= |s| && RoleOf(s[c].kind).Opens?
  {
    var a, p := s[j], PlanFor(s, c, e);
    if j == c then a.(kind := ConfigureMokeBox(a.kind.profile, a.kind.minimumV, a.kind.maximumV, Some(p)))
    else if a.kind.ArmMokeVoltage? then a.(kind := ArmMokeVoltage(Some(p)))
    else if a.kind.UpdateMokeVoltage? then
      a.(kind := UpdateMokeVoltage(a.kind.vout, a.kind.voltageV, AppliedVoltage(p.minimumV, p.maximumV, a.kind.voltageV),
                                   s[c].kind.profile.rampTimeoutS))
    else a
  }

  /** An open segment: its moves know their ramp timeout already, its plan is still to come. */
  function Timed(a: PlanAction, profile: MokeProfile): PlanAction {
    if a.kind.UpdateMokeVoltage?
    then a.(kind := UpdateMokeVoltage(a.kind.vout, a.kind.voltageV, a.kind.appliedV, profile.rampTimeoutS))
    else a
  }

  /** Every segment that ended before n is bound to its plan, and everything that belongs to none is untouched. */
  predicate Written(s: seq<PlanAction>, t: seq<PlanAction>, n: int)
    requires 0 <= n <= |s| == |t|
  {
    && (forall c, e | 0 <= c < e < n && InSegment(s, c, e) && Breaks(RoleOf(s[e].kind)) ::
          forall j | c <= j < e :: t[j] == Bound(s, c, e, j))
    && (forall j | 0 <= j < n && (RoleOf(s[j].kind).Stops? || RoleOf(s[j].kind).Bystander?) :: t[j] == s[j])
  }

  /** The list after preparation: also the segment that ends with the list is bound. */
  predicate Prepared(s: seq<PlanAction>, t: seq<PlanAction>) {
    && |t| == |s| && Written(s, t, |s|)
    && forall c | 0 <= c < |s| && InSegment(s, c, |s|) :: forall j | c <= j < |s| :: t[j] == Bound(s, c, |s|, j)
  }

  /** What the pass knows at position i: the open segment, its arm action, and its targets so far. */
  ghost predicate Scanning(s: seq<PlanAction>, i: int, configured: int, arm: int, targets: seq<real>)
    requires 0 <= i <= |s|
  {
    if configured < 0 then forall c | 0 <= c < i :: !InSegment(s, c, i)
    else
      && InSegment(s, configured, i)
      && targets == Voltages(s, configured + 1, i)
      && (arm >= 0 ==> ArmedIn(s, configured, i, arm))
      && forall r | configured < r < i && ArmedIn(s, configured, i, r) :: r == arm
  }

  ghost predicate Drafted(s: seq<PlanAction>, t: seq<PlanAction>, i: int, configured: int)
    requires 0 <= i <= |s| == |t| && configured < i && (configured >= 0 ==> RoleOf(s[configured].kind).Opens?)
  {
    && (configured >= 0 ==> forall j | configured <= j < i :: t[j] == Timed(s[j], s[configured].kind.profile))
    && (forall j | i <= j < |s| :: t[j] == s[j])
  }

  /** In a segment with one arm action, binding leaves everything but its configuration, its arm action and its moves alone. */
  lemma BoundElsewhere(s: seq<PlanAction>, c: int, e: int, arm: int)
    requires 0 <= c < e <= |s| && InSegment(s, c, e) && forall r | c < r < e && ArmedIn(s, c, e, r) :: r == arm
    ensures forall j | c < j < e && j != arm && !RoleOf(s[j].kind).Moves? ::
              Bound(s, c, e, j) == s[j] && Timed(s[j], s[c].kind.profile) == s[j]
  {
    forall j | c < j < e && j != arm && !RoleOf(s[j].kind).Moves?
      ensures Bound(s, c, e, j) == s[j] && Timed(s[j], s[c].kind.profile) == s[j]
    {
      assert !ArmedIn(s, c, e, j);
    }
  }

  /** Completes the segment from c to e: one plan for its configuration and its arm action, applied voltages for its moves. */
  method Finish(a: array<PlanAction>, ghost s: seq<PlanAction>, c: nat, e: nat, arm: int, targets: seq<real>) returns (o: Outcome)
    requires |s| == a.Length && c < e <= |s| && Scanning(s, e, c, arm, targets) && Drafted(s, a[..], e, c)
    modifies a
    ensures o.Done? <==> Complete(s, c, e)
    ensures o.Done? ==> forall j | c <= j < e :: a[j] == Bound(s, c, e, j)
    ensures forall j | 0 <= j < a.Length && !(c <= j < e) :: a[j] == old(a[j])
  {
    if targets == [] || arm < 0 {
      return Raised(ConfigurationError);
    }
    var k := a[c].kind;
    var plan := MokePlan(k.profile.fingerprint, k.profile.vout, k.minimumV, k.maximumV, targets);
    if !ValidPlan(plan, k.profile) {
      return Raised(SafetyViolation);
    }
    assert ArmedIn(s, c, e, arm) && plan == PlanFor(s, c, e);
    BoundElsewhere(s, c, e, arm);
    a[c] := a[c].(kind := ConfigureMokeBox(k.profile, k.minimumV, k.maximumV, Some(plan)));
    a[arm] := a[arm].(kind := ArmMokeVoltage(Some(plan)));
    BindMoves(a, s, c, e, k.profile);
    return Done;
  }

  method BindMoves(a: array<PlanAction>, ghost s: seq<PlanAction>, c: nat, e: nat, profile: MokeProfile)
    requires |s| == a.Length && c < e <= |s| && RoleOf(s[c].kind).Opens? && profile == s[c].kind.profile
    requires a[c] == Bound(s, c, e, c)
    requires forall x | c < x < e && !RoleOf(s[x].kind).Moves? :: a[x] == Bound(s, c, e, x)
    requires forall x | c < x < e && RoleOf(s[x].kind).Moves? :: a[x] == Timed(s[x], profile)
    modifies a
    ensures forall j | c <= j < e :: a[j] == Bound(s, c, e, j)
    ensures forall j | 0 <= j < a.Length && !(c <= j < e) :: a[j] == old(a[j])
  {
    hide RoleOf, Bound, Timed;
    var plan := a[c].kind;
    BoundPlan(s, c, e);
    for j := c + 1 to e
      invariant forall x | c <= x < e && (x < j || !RoleOf(s[x].kind).Moves?) :: a[x] == Bound(s, c, e, x)
      invariant forall x | j <= x < e && RoleOf(s[x].kind).Moves? :: a[x] == Timed(s[x], profile)
      invariant forall x | 0 <= x < a.Length && !(c <= x < e) :: a[x] == old(a[x])
    {
      BoundMove(s, c, e, j, profile);
      if a[j].kind.UpdateMokeVoltage? {
        var m := a[j].kind;
        a[j] := a[j].(kind := UpdateMokeVoltage(m.vout, m.voltageV, AppliedVoltage(plan.minimumV, plan.maximumV, m.voltageV), m.rampTimeoutS));
      }
    }
  }

  lemma BoundPlan(s: seq<PlanAction>, c: int, e: int)
    requires 0 <= c < e <= |s| && RoleOf(s[c].kind).Opens?
    ensures var k := Bound(s, c, e, c).kind;
            k.ConfigureMokeBox? && k.minimumV == PlanFor(s, c, e).minimumV && k.maximumV == PlanFor(s, c, e).maximumV
  {
  }

  /** A move that knows its ramp timeout lacks only its DAC voltage; nothing else of a segment is a move. */
  lemma BoundMove(s: seq<PlanAction>, c: int, e: int, j: int, profile: MokeProfile)
    requires 0 <= c < j < e <= |s| && RoleOf(s[c].kind).Opens? && profile == s[c].kind.profile
    ensures !RoleOf(s[j].kind).Moves? ==> !Bound(s, c, e, j).kind.UpdateMokeVoltage?
    ensures RoleOf(s[j].kind).Moves? ==>
              var t, p := Timed(s[j], profile), PlanFor(s, c, e);
              && t.kind.UpdateMokeVoltage?
              && Bound(s, c, e, j) == t.(kind := UpdateMokeVoltage(
                   t.kind.vout, t.kind.voltageV, AppliedVoltage(p.minimumV, p.maximumV, t.kind.voltageV), t.kind.rampTimeoutS))
  {
  }

  // ---- What one more action means for the scan ----

  lemma SegmentGrows(s: seq<PlanAction>, c: int, i: int)
    requires 0 <= c < i < |s| && !Breaks(RoleOf(s[i].kind))
    ensures InSegment(s, c, i + 1) <==> InSegment(s, c, i)
  {
    if InSegment(s, c, i + 1) {
      assert NoBreak(s, c + 1, i);
    }
  }

  lemma ScanOpens(s: seq<PlanAction>, i: int)
    requires 0 <= i < |s| && RoleOf(s[i].kind).Opens?
    ensures Scanning(s, i + 1, i, -1, [])
  {
  }

  lemma ScanStops(s: seq<PlanAction>, i: int)
    requires 0 <= i < |s| && RoleOf(s[i].kind).Stops?
    ensures Scanning(s, i + 1, -1, -1, [])
  {
    var n := i + 1;
    forall c | 0 <= c < n ensures !InSegment(s, c, n) {
      assert Breaks(RoleOf(s[i].kind));
    }
  }

  lemma ScanOn(s: seq<PlanAction>, i: int, configured: int, arm: int, targets: seq<real>)
    requires 0 <= i < |s| && configured < i && Scanning(s, i, configured, arm, targets)
    requires !Breaks(RoleOf(s[i].kind)) && (RoleOf(s[i].kind).Arms? ==> configured >= 0 && arm < 0)
    ensures Scanning(s, i + 1, configured, if RoleOf(s[i].kind).Arms? then i else arm,
                     if RoleOf(s[i].kind).Moves? then targets + [s[i].kind.voltageV] else targets)
  {
    var n := i + 1;
    if configured >= 0 {
      SegmentGrows(s, configured, i);
      forall r | configured < r < i && ArmedIn(s, configured, n, r) ensures r == arm {
        assert ArmedIn(s, configured, i, r);
      }
    } else {
      forall c | 0 <= c < n ensures !InSegment(s, c, n) {
        if c < i {
          SegmentGrows(s, c, i);
        }
      }
    }
  }

  /** What the rules at position i come to, for a pass that knows the open segment. */
  lemma LegalAtMeans(s: seq<PlanAction>, i: int, configured: int, arm: int, targets: seq<real>)
    requires 0 <= i <= |s| && configured < i && Scanning(s, i, configured, arm, targets) && (configured < 0 ==> arm < 0)
    ensures i == |s| || Breaks(RoleOf(s[i].kind)) ==> (LegalAt(s, i) <==> configured < 0 || Complete(s, configured, i))
    ensures i < |s| && RoleOf(s[i].kind).Arms? ==> (LegalAt(s, i) <==> configured >= 0 && arm < 0)
    ensures i < |s| && RoleOf(s[i].kind).Moves? ==>
      (LegalAt(s, i) <==> configured >= 0 && arm >= 0 && s[i].kind.vout == s[configured].kind.profile.vout)
    ensures i < |s| && RoleOf(s[i].kind).Bystander? ==> LegalAt(s, i)
  {
    forall c | 0 <= c < i && InSegment(s, c, i) ensures c == configured {
      if configured >= 0 {
        OneSegment(s, c, configured, i);
      }
    }
    if configured >= 0 && arm >= 0 {
      assert ArmedIn(s, configured, i, arm);
    }
  }

  lemma WrittenOn(s: seq<PlanAction>, t: seq<PlanAction>, i: int)
    requires 0 <= i < |s| == |t| && Written(s, t, i)
    requires RoleOf(s[i].kind).Stops? || RoleOf(s[i].kind).Bystander? ==> t[i] == s[i]
    requires Breaks(RoleOf(s[i].kind)) ==> forall c | 0 <= c < i && InSegment(s, c, i) :: forall j | c <= j < i :: t[j] == Bound(s, c, i, j)
    ensures Written(s, t, i + 1)
  {
  }

  /** A configuration or a stop: the open segment, if any, must be complete. */
  method PassBreak(a: array<PlanAction>, ghost s: seq<PlanAction>, i: nat, configured: int, arm: int, targets: seq<real>) returns (o: Outcome)
    requires |s| == a.Length && i < |s| && configured < i && Scanning(s, i, configured, arm, targets) && (configured < 0 ==> arm < 0)
    requires Written(s, a[..], i) && Drafted(s, a[..], i, configured) && Breaks(RoleOf(s[i].kind))
    modifies a
    ensures o.Done? <==> LegalAt(s, i)
    ensures o.Done? ==> Written(s, a[..], i + 1) && forall j | i <= j < |s| :: a[j] == s[j]
  {
    LegalAtMeans(s, i, configured, arm, targets);
    o := Done;
    if configured >= 0 {
      o := Finish(a, s, configured, i, arm, targets);
      if o.Raised? {
        return;
      }
      ClosedSegmentWritten(s, old(a[..]), a[..], configured, i);
    } else {
      WrittenOn(s, a[..], i);
    }
  }

  lemma ClosedSegmentWritten(s: seq<PlanAction>, t0: seq<PlanAction>, t1: seq<PlanAction>, c: int, i: int)
    requires 0 <= c < i < |s| == |t0| == |t1| && InSegment(s, c, i) && Breaks(RoleOf(s[i].kind))
    requires Written(s, t0, i) && (forall j | i <= j < |s| :: t0[j] == s[j])
    requires forall j | c <= j < i :: t1[j] == Bound(s, c, i, j)
    requires forall j | 0 <= j < |s| && !(c <= j < i) :: t1[j] == t0[j]
    ensures Written(s, t1, i + 1)
  {
    hide RoleOf, Bound;
    forall d, e | 0 <= d < e < i && InSegment(s, d, e) && Breaks(RoleOf(s[e].kind)) ensures e <= c {
    }
    forall d | 0 <= d < i && InSegment(s, d, i) ensures d == c {
      OneSegment(s, d, c, i);
    }
    forall j | c <= j < i && (RoleOf(s[j].kind).Stops? || RoleOf(s[j].kind).Bystander?) ensures t1[j] == s[j] {
      BoundOther(s, c, i, j);
    }
  }

  lemma BoundOther(s: seq<PlanAction>, c: int, e: int, j: int)
    requires 0 <= c <= j < e <= |s| && RoleOf(s[c].kind).Opens?
    requires RoleOf(s[j].kind).Stops? || RoleOf(s[j].kind).Bystander?
    ensures Bound(s, c, e, j) == s[j]
  {
  }

  /** One action of the pass; `configured` and `arm` are positions, or -1. */
  method PrepareAt(a: array<PlanAction>, ghost s: seq<PlanAction>, i: nat, configured: int, arm: int, targets: seq<real>)
    returns (o: Outcome, configured1: int, arm1: int, targets1: seq<real>)
    requires |s| == a.Length && i < |s| && configured < i && Scanning(s, i, configured, arm, targets) && (configured < 0 ==> arm < 0)
    requires Written(s, a[..], i) && Drafted(s, a[..], i, configured)
    modifies a
    ensures o.Done? <==> LegalAt(s, i)
    ensures o.Done? ==> configured1 <= i && (configured1 < 0 ==> arm1 < 0) && Scanning(s, i + 1, configured1, arm1, targets1)
    ensures o.Done? ==> Written(s, a[..], i + 1) && Drafted(s, a[..], i + 1, configured1)
  {
    LegalAtMeans(s, i, configured, arm, targets);
    configured1, arm1, targets1 := configured, arm, targets;
    var k := a[i].kind;
    assert k == s[i].kind;
    if k.ConfigureMokeBox? {
      o := PassBreak(a, s, i, configured, arm, targets);
      configured1, arm1, targets1 := i, -1, [];
      ScanOpens(s, i);
    } else if k.StopMokeVoltage? {
      o := PassBreak(a, s, i, configured, arm, targets);
      configured1, arm1, targets1 := -1, -1, [];
      ScanStops(s, i);
    } else if k.ArmMokeVoltage? {
      if configured < 0 || arm >= 0 {
        return Raised(ConfigurationError), configured, arm, targets;
      }
      arm1, o := i, Done;
      ScanOn(s, i, configured, arm, targets);
      WrittenOn(s, a[..], i);
    } else if k.UpdateMokeVoltage? {
      if configured < 0 || arm < 0 {
        return Raised(ConfigurationError), configured, arm, targets;
      }
      if k.vout != a[configured].kind.profile.vout {
        return Raised(SafetyViolation), configured, arm, targets;
      }
      a[i] := Timed(a[i], a[configured].kind.profile);
      targets1, o := targets + [k.voltageV], Done;
      ScanOn(s, i, configured, arm, targets);
      MoveWritten(s, old(a[..]), a[..], i);
    } else {
      o := Done;
      ScanOn(s, i, configured, arm, targets);
      WrittenOn(s, a[..], i);
    }
  }

  lemma MoveWritten(s: seq<PlanAction>, t0: seq<PlanAction>, t1: seq<PlanAction>, i: int)
    requires 0 <= i < |s| == |t0| == |t1| && Written(s, t0, i) && RoleOf(s[i].kind).Moves?
    requires forall j | 0 <= j < i :: t1[j] == t0[j]
    ensures Written(s, t1, i + 1)
  {
  }

  /**
   Plans all segments of a list, in place. It fails exactly when the list breaks a
   rule; otherwise each configuration and its arm action carry the same plan, of exactly the voltages between this
   configuration and the end of its segment, in order.
   */
  method PrepareTrajectories(a: array<PlanAction>) returns (o: Outcome)
    modifies a
    ensures o.Done? <==> Legal(old(a[..]))
    ensures o.Done? ==> Prepared(old(a[..]), a[..])
    ensures o.Done? ==> forall j | 0 <= j < a.Length && old(a[j]).kind.UpdateMokeVoltage? :: MoveIsBound(old(a[..]), a[..], j)
  {
    hide MoveIsBound;
    ghost var s := a[..];
    var configured, arm, targets := -1, -1, [];
    for i := 0 to a.Length
      invariant configured < i && (configured < 0 ==> arm < 0) && Scanning(s, i, configured, arm, targets)
      invariant Written(s, a[..], i) && Drafted(s, a[..], i, configured)
      invariant forall j | 0 <= j < i :: LegalAt(s, j)
    {
      o, configured, arm, targets := PrepareAt(a, s, i, configured, arm, targets);
      if o.Raised? {
        return;
      }
    }
    LegalAtMeans(s, |s|, configured, arm, targets);
    if configured >= 0 {
      ghost var t := a[..];
      o := Finish(a, s, configured, a.Length, arm, targets);
      if o.Done? {
        LastSegmentWritten(s, t, a[..], configured);
      }
    } else {
      o := Done;
    }
    if o.Done? {
      MovesAreBound(s, a[..]);
    }
  }

  lemma MovesAreBound(s: seq<PlanAction>, t: seq<PlanAction>)
    requires |s| == |t| && Legal(s) && Prepared(s, t)
    ensures forall j | 0 <= j < |s| && s[j].kind.UpdateMokeVoltage? :: MoveIsBound(s, t, j)
  {
    hide Legal, Prepared, MoveIsBound;
    forall j | 0 <= j < |s| && s[j].kind.UpdateMokeVoltage? ensures MoveIsBound(s, t, j) {
      PreparedMove(s, t, j);
    }
  }

  lemma LastSegmentWritten(s: seq<PlanAction>, t0: seq<PlanAction>, t1: seq<PlanAction>, c: int)
    requires 0 <= c < |s| == |t0| == |t1| && InSegment(s, c, |s|) && Written(s, t0, |s|)
    requires forall j | c <= j < |s| :: t1[j] == Bound(s, c, |s|, j)
    requires forall j | 0 <= j < c :: t1[j] == t0[j]
    ensures Prepared(s, t1)
  {
    forall d, e | 0 <= d < e < |s| && InSegment(s, d, e) && Breaks(RoleOf(s[e].kind)) ensures e <= c {
    }
    forall d | 0 <= d < |s| && InSegment(s, d, |s|) ensures d == c {
      OneSegment(s, d, c, |s|);
    }
  }

  /**
   What a prepared move carries: between the last configuration before it and the move lie no other configuration and no
   stop, and one arm action with the same plan; the plan lists the move's voltage, and the move carries the DAC
   voltage that is nearest to it within the limits of its configuration, which are within those of the profile.
   */
  ghost predicate MoveBoundBy(s: seq<PlanAction>, t: seq<PlanAction>, c: int, r: int, j: int)
    requires 0 <= c < r < j < |s| == |t|
  {
    var set0, armed, move := t[c].kind, t[r].kind, t[j].kind;
    && set0.ConfigureMokeBox? && set0.plan.Some? && armed == ArmMokeVoltage(set0.plan)
    && (forall x | c < x < j :: !t[x].kind.ConfigureMokeBox? && !t[x].kind.StopMokeVoltage?)
    && s[j].kind.UpdateMokeVoltage? && move.UpdateMokeVoltage?
    && move.vout == s[j].kind.vout == set0.plan.value.vout && move.voltageV == s[j].kind.voltageV
    && move.voltageV in set0.plan.value.targetsV
    && set0.plan.value.minimumV == set0.minimumV && set0.plan.value.maximumV == set0.maximumV
    && set0.plan.value.fingerprint == set0.profile.fingerprint && set0.plan.value.vout == set0.profile.vout
    && set0.profile.minimumV <= set0.minimumV < set0.maximumV <= set0.profile.maximumV
    && move.rampTimeoutS == set0.profile.rampTimeoutS
    && move.appliedV.Some? && NearestDac(set0.minimumV, set0.maximumV, move.voltageV, move.appliedV.value)
  }

  ghost predicate MoveIsBound(s: seq<PlanAction>, t: seq<PlanAction>, j: int)
    requires 0 <= j < |s| == |t|
  {
    exists c, r :: 0 <= c < r < j && MoveBoundBy(s, t, c, r, j)
  }

  lemma {:induction false} VoltageListed(s: seq<PlanAction>, lo: int, hi: int, j: int)
    requires 0 <= lo <= j < hi <= |s| && s[j].kind.UpdateMokeVoltage?
    ensures s[j].kind.voltageV in Voltages(s, lo, hi)
    decreases hi - lo
  {
    if j < hi - 1 {
      VoltageListed(s, lo, hi - 1, j);
    }
  }

  lemma PreparedMove(s: seq<PlanAction>, t: seq<PlanAction>, j: int)
    requires |s| == |t| && Legal(s) && Prepared(s, t) && 0 <= j < |s| && s[j].kind.UpdateMokeVoltage?
    ensures MoveIsBound(s, t, j)
  {
    hide AppliedVoltage, NearestDac, ValidPlan, MoveBoundBy, Bound, Prepared, Complete;
    assert LegalAt(s, j);
    var c :| 0 <= c < j && InSegment(s, c, j) && s[j].kind.vout == s[c].kind.profile.vout && exists r :: c < r < j && ArmedIn(s, c, j, r);
    var r :| c < r < j && ArmedIn(s, c, j, r);
    var e := SegmentEnd(s, j);
    SegmentCarriesOnePlan(s, t, c, j);
    MoveHasVoltage(s, c, e, j);
    forall x | c < x < j ensures !t[x].kind.ConfigureMokeBox? && !t[x].kind.StopMokeVoltage? {
      assert !Breaks(RoleOf(s[x].kind)) && t[x] == Bound(s, c, e, x);
      BoundKeepsRole(s, c, e, x);
    }
    BoundTriple(s, t, c, r, e, j);
  }

  lemma BoundKeepsRole(s: seq<PlanAction>, c: int, e: int, x: int)
    requires 0 <= c < x < e <= |s| && RoleOf(s[c].kind).Opens? && !Breaks(RoleOf(s[x].kind))
    ensures !Breaks(RoleOf(Bound(s, c, e, x).kind))
    ensures !Bound(s, c, e, x).kind.ConfigureMokeBox? && !Bound(s, c, e, x).kind.StopMokeVoltage?
  {
    hide AppliedVoltage, PlanFor;
  }

  lemma BoundTriple(s: seq<PlanAction>, t: seq<PlanAction>, c: int, r: int, e: int, j: int)
    requires 0 <= c < r < j < e <= |s| == |t| && s[c].kind.ConfigureMokeBox? && s[r].kind.ArmMokeVoltage? && s[j].kind.UpdateMokeVoltage?
    requires t[c] == Bound(s, c, e, c) && t[r] == Bound(s, c, e, r) && t[j] == Bound(s, c, e, j)
    requires s[j].kind.vout == s[c].kind.profile.vout
    requires forall x | c < x < j :: !t[x].kind.ConfigureMokeBox? && !t[x].kind.StopMokeVoltage?
    requires var p := PlanFor(s, c, e);
             && s[c].kind.profile.minimumV <= p.minimumV < p.maximumV <= s[c].kind.profile.maximumV
             && s[j].kind.voltageV in p.targetsV && AppliedVoltage(p.minimumV, p.maximumV, s[j].kind.voltageV).Some?
             && NearestDac(p.minimumV, p.maximumV, s[j].kind.voltageV, AppliedVoltage(p.minimumV, p.maximumV, s[j].kind.voltageV).value)
    ensures MoveBoundBy(s, t, c, r, j)
  {
    hide AppliedVoltage, NearestDac, Voltages;
  }

  lemma MoveHasVoltage(s: seq<PlanAction>, c: int, e: int, j: int)
    requires 0 <= c < j < e <= |s| && RoleOf(s[c].kind).Opens? && s[j].kind.UpdateMokeVoltage?
    requires ValidPlan(PlanFor(s, c, e), s[c].kind.profile)
    ensures var p := PlanFor(s, c, e);
            && s[c].kind.profile.minimumV <= p.minimumV < p.maximumV <= s[c].kind.profile.maximumV
            && s[j].kind.voltageV in p.targetsV && AppliedVoltage(p.minimumV, p.maximumV, s[j].kind.voltageV).Some?
            && NearestDac(p.minimumV, p.maximumV, s[j].kind.voltageV, AppliedVoltage(p.minimumV, p.maximumV, s[j].kind.voltageV).value)
  {
    hide AppliedVoltage, NearestDac;
    VoltageListed(s, c + 1, e, j);
    var p := PlanFor(s, c, e);
    AppliedVoltageIsNearest(p.minimumV, p.maximumV, s[j].kind.voltageV);
  }

  // ---- What the runner finds ----

  /** Where the segment that is open just before position i ends. */
  function SegmentEnd(s: seq<PlanAction>, i: int): (e: int)
    requires 0 <= i <= |s|
    ensures i <= e <= |s| && NoBreak(s, i, e) && (e == |s| || Breaks(RoleOf(s[e].kind)))
    decreases |s| - i
  {
    if i == |s| || Breaks(RoleOf(s[i].kind)) then i else SegmentEnd(s, i + 1)
  }

  /** The configuration of a prepared list, its arm action, and its moves carry what belongs together. */
  lemma SegmentCarriesOnePlan(s: seq<PlanAction>, t: seq<PlanAction>, c: int, i: int)
    requires Legal(s) && Prepared(s, t) && 0 <= c < i <= |s| && InSegment(s, c, i)
    ensures var e := SegmentEnd(s, i);
            && InSegment(s, c, e)
            && ValidPlan(PlanFor(s, c, e), s[c].kind.profile)
            && PlanFor(s, c, e).targetsV == Voltages(s, c + 1, e) != []
            && forall j | c <= j < e :: t[j] == Bound(s, c, e, j)
  {
    var e := SegmentEnd(s, i);
    assert LegalAt(s, e);
    assert NoBreak(s, c + 1, i) && NoBreak(s, i, e);
    assert InSegment(s, c, e);
    assert Complete(s, c, e);
  }

  /** The runner goes through the list without its fault-only actions and is never refused by its own two MOKE checks. */
  ghost predicate PermittedFrom(t: seq<PlanAction>, i: int, prepared: Option<MokePlan>)
    requires 0 <= i <= |t|
    decreases |t| - i
  {
    i == |t| ||
    if t[i].faultOnly then PermittedFrom(t, i + 1, prepared)
    else MokePermits(t[i].kind, prepared) && PermittedFrom(t, i + 1, MokePlanAfter(t[i].kind, prepared))
  }

  predicate OnlyStopsSkipped(t: seq<PlanAction>) {
    forall j | 0 <= j < |t| && t[j].faultOnly :: RoleOf(t[j].kind).Stops? || RoleOf(t[j].kind).Bystander?
  }

  lemma RolesKept(s: seq<PlanAction>, t: seq<PlanAction>, i: int)
    requires Legal(s) && Prepared(s, t) && 0 <= i < |s|
    ensures RoleOf(t[i].kind) == RoleOf(s[i].kind) && t[i].faultOnly == s[i].faultOnly
  {
    assert LegalAt(s, i);
    if RoleOf(s[i].kind).Opens? {
      SegmentCarriesOnePlan(s, t, i, i + 1);
    } else if RoleOf(s[i].kind).Arms? || RoleOf(s[i].kind).Moves? {
      var c :| 0 <= c < i && InSegment(s, c, i);
      SegmentCarriesOnePlan(s, t, c, i);
      assert t[i] == Bound(s, c, SegmentEnd(s, i), i);
    }
  }

  /** The plan the runner holds when it comes to position i of an open segment is the one of its configuration. */
  ghost predicate HoldsPlan(s: seq<PlanAction>, t: seq<PlanAction>, i: int, prepared: Option<MokePlan>)
    requires 0 <= i <= |s| == |t|
  {
    forall c | 0 <= c < i && InSegment(s, c, i) :: t[c].kind.ConfigureMokeBox? && prepared == t[c].kind.plan
  }

  lemma StepPermitted(s: seq<PlanAction>, t: seq<PlanAction>, i: int, prepared: Option<MokePlan>)
    requires Legal(s) && Prepared(s, t) && OnlyStopsSkipped(t) && 0 <= i < |s| && HoldsPlan(s, t, i, prepared)
    ensures MokePermits(t[i].kind, prepared)
    ensures HoldsPlan(s, t, i + 1, if t[i].faultOnly then prepared else MokePlanAfter(t[i].kind, prepared))
  {
    RolesKept(s, t, i);
    assert LegalAt(s, i);
    var n, r := i + 1, RoleOf(s[i].kind);
    if r.Opens? {
      SegmentCarriesOnePlan(s, t, i, n);
      assert t[i] == Bound(s, i, SegmentEnd(s, n), i);
    } else if r.Arms? || r.Moves? {
      var c :| 0 <= c < i && InSegment(s, c, i);
      SegmentCarriesOnePlan(s, t, c, i);
      assert t[i] == Bound(s, c, SegmentEnd(s, i), i) && t[c] == Bound(s, c, SegmentEnd(s, i), c);
    }
    forall c | 0 <= c < n && InSegment(s, c, n)
      ensures t[c].kind.ConfigureMokeBox? && t[c].kind.plan == if t[i].faultOnly then prepared else MokePlanAfter(t[i].kind, prepared)
    {
      if c < i {
        assert !Breaks(r);
        SegmentGrows(s, c, i);
      }
    }
  }

  lemma {:induction false} PermittedFromHere(s: seq<PlanAction>, t: seq<PlanAction>, i: int, prepared: Option<MokePlan>)
    requires Legal(s) && Prepared(s, t) && OnlyStopsSkipped(t) && 0 <= i <= |s| && HoldsPlan(s, t, i, prepared)
    ensures PermittedFrom(t, i, prepared)
    decreases |s| - i
  {
    if i < |s| {
      StepPermitted(s, t, i, prepared);
      PermittedFromHere(s, t, i + 1, if t[i].faultOnly then prepared else MokePlanAfter(t[i].kind, prepared));
    }
  }

  lemma {:induction false} PermittedAtEvery(t: seq<PlanAction>, i: nat)
    requires i <= |t| && PermittedFrom(t, 0, None)
    ensures PermittedFrom(t, i, HeldAfter(t, i))
  {
    if i > 0 {
      PermittedAtEvery(t, i - 1);
    }
  }

  /**
   On a successful path, neither the arm-permission check nor the prepared-trajectory check can fail: at every action
   the runner comes to, it holds exactly the plan that the action needs.
   */
  lemma SuccessfulRunIsPermitted(s: seq<PlanAction>, t: seq<PlanAction>, i: nat)
    requires Legal(s) && Prepared(s, t) && forall a | a in t :: CompiledAction(a)
    requires i < |t| && !t[i].faultOnly
    ensures MokePermits(t[i].kind, HeldAfter(t, i))
  {
    forall j | 0 <= j < |t| && t[j].faultOnly ensures RoleOf(t[j].kind).Stops? || RoleOf(t[j].kind).Bystander? {
      assert CompiledAction(t[j]);
    }
    PermittedFromHere(s, t, 0, None);
    PermittedAtEvery(t, i);
  }
}
