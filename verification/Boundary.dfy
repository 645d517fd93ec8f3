/**
 The committed event log of a run and the recovery scan over it: which safe resume boundary an
 interrupted archive yields, and exactly which archives that runs leave behind can be resumed.
 */
module Boundary {
  import opened Outcomes
  import opened Plan

  /** The payload of a `safe_resume_boundary` row. An absent or mistyped scope or status is None. */
  datatype BoundaryFields = BoundaryFields(
    storedPoints: int, nextActionIndex: int, planHash: string,
    scope: Option<set<Endpoint>>, outputStatus: Option<map<Endpoint, Status>>,
    snapshotIsMapping: bool, referenceIsMapping: bool)

  /** A row that is not JSON, or whose counts are not exact integers, is malformed. */
  datatype Message = Malformed | Fields(fields: BoundaryFields)

  datatype LogEvent = SafeResumeBoundary(message: Message) | OtherEvent(name: string)

  datatype ResumePoint = ResumePoint(storedPoints: nat, nextActionIndex: nat)

  // ---- What makes a boundary acceptable ----

  predicate ProvenOff(f: BoundaryFields, plan: ExecutionPlan) {
    var expected := ControlledOutputEndpoints(plan.actions);
    && f.scope.Some? && expected <= f.scope.value
    && f.outputStatus.Some?
    && forall e | e in expected :: e in f.outputStatus.value && f.outputStatus.value[e] == Off
  }

  predicate CountsAgree(f: BoundaryFields, plan: ExecutionPlan, committed: nat) {
    && 0 <= f.storedPoints <= committed
    && 0 <= f.nextActionIndex <= |plan.actions|
    && Checkpoints(plan.actions[..f.nextActionIndex]) == f.storedPoints
  }

  predicate Acceptable(f: BoundaryFields, plan: ExecutionPlan, committed: nat) {
    ProvenOff(f, plan) && CountsAgree(f, plan, committed) && f.snapshotIsMapping && f.referenceIsMapping
  }

  /** A boundary row that the scan does not pass over: a malformed one, or one of this very plan. */
  predicate Decisive(e: LogEvent, plan: ExecutionPlan) {
    e.SafeResumeBoundary? && (e.message.Malformed? || e.message.fields.planHash == plan.hash)
  }

  function Verdict(e: LogEvent, plan: ExecutionPlan, committed: nat): Result<Option<ResumePoint>>
    requires Decisive(e, plan)
  {
    if e.message.Fields? && Acceptable(e.message.fields, plan, committed)
    then Ok(Some(ResumePoint(e.message.fields.storedPoints, e.message.fields.nextActionIndex)))
    else Err(ExecutionError)
  }

  /** One plain reverse scan: the last decisive row decides. */
  function ReverseScan(events: seq<LogEvent>, plan: ExecutionPlan, committed: nat): Result<Option<ResumePoint>> {
    if events == [] then Ok(None)
    else
      var last := events[|events| - 1];
      if Decisive(last, plan) then Verdict(last, plan, committed)
      else ReverseScan(events[..|events| - 1], plan, committed)
  }

  // ---- The chunked scan ----

  method VerifyBoundary(e: LogEvent, plan: ExecutionPlan, committed: nat) returns (r: Result<Option<ResumePoint>>)
    requires Decisive(e, plan)
    ensures r == Verdict(e, plan, committed)
    ensures r.Ok? <==>
              && e.message.Fields? && var f := e.message.fields;
              && f.scope.Some? && f.outputStatus.Some? && f.snapshotIsMapping && f.referenceIsMapping
              && (forall a, x | a in plan.actions && x in EndpointsOf(a.kind) ::
                    x in f.scope.value && x in f.outputStatus.value && f.outputStatus.value[x] == Off)
              && 0 <= f.storedPoints <= committed && 0 <= f.nextActionIndex <= |plan.actions|
              && Checkpoints(plan.actions[..f.nextActionIndex]) == f.storedPoints
    ensures r.Ok? ==> r.value == Some(ResumePoint(e.message.fields.storedPoints, e.message.fields.nextActionIndex))
  {
    if e.message.Malformed? {
      return Err(ExecutionError);
    }
    var f := e.message.fields;
    var expected := ControlledOutputEndpoints(plan.actions);
    if f.scope.None? || !(expected <= f.scope.value) || f.outputStatus.None?
       || exists e | e in expected :: e !in f.outputStatus.value || f.outputStatus.value[e] != Off
    {
      return Err(ExecutionError);
    }
    if !(0 <= f.storedPoints <= committed) || !(0 <= f.nextActionIndex <= |plan.actions|) {
      return Err(ExecutionError);
    }
    if Checkpoints(plan.actions[..f.nextActionIndex]) != f.storedPoints {
      return Err(ExecutionError);
    }
    if !f.snapshotIsMapping || !f.referenceIsMapping {
      return Err(ExecutionError);
    }
    return Ok(Some(ResumePoint(f.storedPoints, f.nextActionIndex)));
  }

  const CHUNK := 500

  /** One chunk, newest row first. None: no row of it decides. */
  method ScanChunk(ghost events: seq<LogEvent>, ghost start: nat, chunk: seq<LogEvent>, plan: ExecutionPlan, committed: nat)
    returns (decided: Option<Result<Option<ResumePoint>>>)
    requires start + |chunk| <= |events| && events[start..start + |chunk|] == chunk
    ensures ReverseScan(events[..start + |chunk|], plan, committed) ==
            if decided.Some? then decided.value else ReverseScan(events[..start], plan, committed)
  {
    var j := |chunk|;
    while j > 0
      invariant 0 <= j <= |chunk|
      invariant ReverseScan(events[..start + |chunk|], plan, committed) == ReverseScan(events[..start + j], plan, committed)
    {
      j := j - 1;
      assert events[..start + j + 1][..start + j] == events[..start + j];
      assert events[start + j] == chunk[j];
      if Decisive(chunk[j], plan) {
        var v := VerifyBoundary(chunk[j], plan, committed);
        return Some(v);
      }
    }
    return None;
  }

  /** Scanning backwards chunk by chunk, to bound memory, finds what one plain reverse scan finds. */
  method LatestBoundary(events: seq<LogEvent>, plan: ExecutionPlan, committed: nat)
    returns (r: Result<Option<ResumePoint>>)
    ensures r == ReverseScan(events, plan, committed)
  {
    var end := |events|;
    assert events[..end] == events;
    while end > 0
      invariant 0 <= end <= |events|
      invariant ReverseScan(events, plan, committed) == ReverseScan(events[..end], plan, committed)
      decreases end
    {
      var start := Max(0, end - CHUNK);
      var decided := ScanChunk(events, start, events[start..end], plan, committed);
      if decided.Some? {
        return decided.value;
      }
      end := start;
    }
    return Ok(None);
  }

  /** The scan answers with position i exactly when i is decisive and nothing after it is. */
  lemma {:induction false} ScanDecidedBy(events: seq<LogEvent>, plan: ExecutionPlan, committed: nat, i: nat)
    requires i < |events| && Decisive(events[i], plan)
    requires forall j | i < j < |events| :: !Decisive(events[j], plan)
    ensures ReverseScan(events, plan, committed) == Verdict(events[i], plan, committed)
  {
    if i < |events| - 1 {
      ScanDecidedBy(events[..|events| - 1], plan, committed, i);
    }
  }

  lemma {:induction false} ScanDecidedByNone(events: seq<LogEvent>, plan: ExecutionPlan, committed: nat)
    requires forall j | 0 <= j < |events| :: !Decisive(events[j], plan)
    ensures ReverseScan(events, plan, committed) == Ok(None)
  {
    if events != [] {
      ScanDecidedByNone(events[..|events| - 1], plan, committed);
    }
  }

  // ---- What a run leaves in its archive ----

  /** One durable effect of a run, in the order it was committed. */
  datatype Durable = PointStored | EventStored(event: LogEvent)

  function EventsIn(h: seq<Durable>): seq<LogEvent> {
    if h == [] then []
    else EventsIn(h[..|h| - 1]) + if h[|h| - 1].EventStored? then [h[|h| - 1].event] else []
  }

  function PointsIn(h: seq<Durable>): nat {
    if h == [] then 0
    else PointsIn(h[..|h| - 1]) + if h[|h| - 1].PointStored? then 1 else 0
  }

  predicate IsBoundary(d: Durable) {
    d.EventStored? && d.event.SafeResumeBoundary?
  }

  /** Durable effects that a scan ignores. */
  predicate Quiet(h: seq<Durable>) {
    forall i | 0 <= i < |h| :: !IsBoundary(h[i])
  }

  function BoundaryAt(h: seq<Durable>, i: nat): BoundaryFields
    requires i < |h| && IsBoundary(h[i]) && h[i].event.message.Fields?
  {
    h[i].event.message.fields
  }

  /**
   The log of one run that began with `start` points already stored: every boundary in it is of this plan
   and acceptable with the points stored up to that moment, and their point counts strictly increase.
   */
  ghost predicate RunLog(plan: ExecutionPlan, start: nat, h: seq<Durable>) {
    && (forall i | 0 <= i < |h| && IsBoundary(h[i]) ::
          && h[i].event.message.Fields?
          && BoundaryAt(h, i).planHash == plan.hash
          && Acceptable(BoundaryAt(h, i), plan, start + PointsIn(h[..i]))
          && start < BoundaryAt(h, i).storedPoints)
    && (forall i, j | 0 <= i < j < |h| && IsBoundary(h[i]) && IsBoundary(h[j]) ::
          BoundaryAt(h, i).storedPoints < BoundaryAt(h, j).storedPoints)
  }

  /** The archive of a plan across crashes and resumes: its events are kept, its points are cut back on resume. */
  datatype Archive = Archive(events: seq<LogEvent>, points: nat)

  function Extend(a: Archive, h: seq<Durable>): Archive {
    Archive(a.events + EventsIn(h), a.points + PointsIn(h))
  }

  /**
   Where recovery resumes this archive. Without a boundary it starts over, but only an archive that holds no point:
   points that no boundary covers cannot be told from points of an unknown state.
   */
  function ResumeAt(a: Archive, plan: ExecutionPlan): Result<ResumePoint> {
    match ReverseScan(a.events, plan, a.points)
    case Err(e) => Err(e)
    case Ok(None) => if a.points > 0 then Err(ExecutionError) else Ok(ResumePoint(0, 0))
    case Ok(Some(p)) => Ok(p)
  }

  /** A boundary row of this plan, whatever it says. */
  predicate BoundaryOf(e: LogEvent, plan: ExecutionPlan) {
    e.SafeResumeBoundary? && e.message.Fields? && e.message.fields.planHash == plan.hash
  }

  predicate HasBoundary(a: Archive, plan: ExecutionPlan) {
    exists e | e in a.events :: BoundaryOf(e, plan)
  }

  ghost predicate InStep(plan: ExecutionPlan, a: Archive) {
    var p := ResumeAt(a, plan);
    && p.Ok? && p.value.storedPoints == a.points
    && p.value.nextActionIndex <= |plan.actions|
    && Checkpoints(plan.actions[..p.value.nextActionIndex]) == a.points
  }

  lemma {:induction false} PointsMonotone(h: seq<Durable>, i: nat)
    requires i <= |h|
    ensures PointsIn(h[..i]) <= PointsIn(h)
    decreases |h|
  {
    if i < |h| {
      PointsMonotone(h[..|h| - 1], i);
      assert h[..|h| - 1][..i] == h[..i];
    } else {
      assert h[..i] == h;
    }
  }

  lemma {:induction false} MoreCommitted(events: seq<LogEvent>, plan: ExecutionPlan, few: nat, many: nat)
    requires few <= many && ReverseScan(events, plan, few).Ok?
    ensures ReverseScan(events, plan, many) == ReverseScan(events, plan, few)
  {
    if events != [] && !Decisive(events[|events| - 1], plan) {
      MoreCommitted(events[..|events| - 1], plan, few, many);
    }
  }

  /** The position of the last boundary in a log, or -1. */
  function LastBoundary(h: seq<Durable>): (i: int)
    ensures -1 <= i < |h|
    ensures i >= 0 ==> IsBoundary(h[i])
    ensures forall j | i < j < |h| :: !IsBoundary(h[j])
  {
    if h == [] then -1
    else if IsBoundary(h[|h| - 1]) then |h| - 1
    else LastBoundary(h[..|h| - 1])
  }

  /** A row that is no boundary, or a point, does not change what the scan finds. */
  lemma QuietStep(a: Archive, plan: ExecutionPlan, h: seq<Durable>)
    requires h != [] && !IsBoundary(h[|h| - 1])
    requires ReverseScan(Extend(a, h[..|h| - 1]).events, plan, Extend(a, h[..|h| - 1]).points).Ok?
    ensures ReverseScan(Extend(a, h).events, plan, Extend(a, h).points) ==
            ReverseScan(Extend(a, h[..|h| - 1]).events, plan, Extend(a, h[..|h| - 1]).points)
  {
    var before, after := Extend(a, h[..|h| - 1]), Extend(a, h);
    if h[|h| - 1].EventStored? {
      assert after.events == before.events + [h[|h| - 1].event];
      QuietRow(before.events, h[|h| - 1].event, plan, before.points);
    } else {
      assert after.events == before.events;
      MoreCommitted(before.events, plan, before.points, after.points);
    }
  }

  lemma QuietRow(events: seq<LogEvent>, e: LogEvent, plan: ExecutionPlan, committed: nat)
    requires e.OtherEvent?
    ensures ReverseScan(events + [e], plan, committed) == ReverseScan(events, plan, committed)
  {
    assert (events + [e])[..|events|] == events;
  }

  /** Quiet rows after the archive leave the earlier answer standing. */
  lemma {:induction false} QuietExtension(a: Archive, plan: ExecutionPlan, h: seq<Durable>)
    requires ReverseScan(a.events, plan, a.points).Ok? && Quiet(h)
    ensures ReverseScan(Extend(a, h).events, plan, Extend(a, h).points) == ReverseScan(a.events, plan, a.points)
  {
    if h == [] {
      assert a.events + [] == a.events;
    } else {
      QuietExtension(a, plan, h[..|h| - 1]);
      QuietStep(a, plan, h);
    }
  }

  /** An acceptable boundary followed by quiet rows is the answer. */
  lemma {:induction false} BoundaryDecides(a: Archive, plan: ExecutionPlan, h: seq<Durable>, i: nat)
    requires i < |h| && IsBoundary(h[i]) && Quiet(h[i + 1..])
    requires h[i].event.message.Fields? && BoundaryAt(h, i).planHash == plan.hash
    requires Acceptable(BoundaryAt(h, i), plan, a.points + PointsIn(h[..i]))
    ensures ReverseScan(Extend(a, h).events, plan, Extend(a, h).points) ==
            Ok(Some(ResumePoint(BoundaryAt(h, i).storedPoints, BoundaryAt(h, i).nextActionIndex)))
  {
    var front := h[..|h| - 1];
    if i == |h| - 1 {
      var after := Extend(a, h);
      assert after.events == Extend(a, front).events + [h[i].event];
    } else {
      assert forall j | i < j < |h| :: h[i + 1..][j - i - 1] == h[j];
      assert front[..i] == h[..i];
      BoundaryDecides(a, plan, front, i);
      QuietStep(a, plan, h);
    }
  }

  /** A scan that does not raise finds a boundary exactly when the log has one of this plan. */
  lemma {:induction false} FoundIffPresent(events: seq<LogEvent>, plan: ExecutionPlan, committed: nat)
    requires ReverseScan(events, plan, committed).Ok?
    ensures ReverseScan(events, plan, committed).value.Some? <==> exists e | e in events :: BoundaryOf(e, plan)
  {
    if events != [] {
      var front, last := events[..|events| - 1], events[|events| - 1];
      assert last in events;
      if !Decisive(last, plan) {
        FoundIffPresent(front, plan, committed);
        assert events == front + [last];
      }
    }
  }

  /** The scan of an interrupted archive does not raise: it finds the last boundary written, or what it found before. */
  lemma CrashedScan(a: Archive, plan: ExecutionPlan, h: seq<Durable>, k: nat)
    requires k <= |h| && RunLog(plan, a.points, h) && InStep(plan, a)
    ensures var crashed, last := Extend(a, h[..k]), LastBoundary(h[..k]);
            ReverseScan(crashed.events, plan, crashed.points) ==
            if last < 0 then ReverseScan(a.events, plan, a.points)
            else Ok(Some(ResumePoint(BoundaryAt(h, last).storedPoints, BoundaryAt(h, last).nextActionIndex)))
  {
    var g := h[..k];
    var i := LastBoundary(g);
    if i < 0 {
      QuietExtension(a, plan, g);
    } else {
      assert g[..i] == h[..i] && IsBoundary(h[i]);
      BoundaryDecides(a, plan, g, i);
    }
  }

  /**
   However a run is cut off, what it leaves can be resumed if and only if a boundary of this plan was committed or no
   point was. It is then resumed at the last boundary written, or where the archive already stood: the points up to
   it are committed, and they are exactly the checkpoint-producing actions before the action to resume at.
   */
  lemma CrashedArchiveResumesIff(a: Archive, plan: ExecutionPlan, h: seq<Durable>, k: nat)
    requires k <= |h| && RunLog(plan, a.points, h) && InStep(plan, a)
    ensures var crashed, last := Extend(a, h[..k]), LastBoundary(h[..k]);
            var p := ResumeAt(crashed, plan);
            && (p.Ok? <==> HasBoundary(crashed, plan) || crashed.points == 0)
            && (HasBoundary(crashed, plan) <==> HasBoundary(a, plan) || last >= 0)
            && (p.Ok? ==>
                  && p.value.storedPoints <= crashed.points
                  && p.value.nextActionIndex <= |plan.actions|
                  && Checkpoints(plan.actions[..p.value.nextActionIndex]) == p.value.storedPoints
                  && if last < 0 then p == ResumeAt(a, plan)
                     else var f := BoundaryAt(h, last);
                          p.value.storedPoints == f.storedPoints && p.value.nextActionIndex == f.nextActionIndex)
  {
    var g, crashed := h[..k], Extend(a, h[..k]);
    CrashedScan(a, plan, h, k);
    FoundIffPresent(crashed.events, plan, crashed.points);
    FoundIffPresent(a.events, plan, a.points);
    var i := LastBoundary(g);
    if i >= 0 {
      assert g[..i] == h[..i] && IsBoundary(h[i]);
      PointsMonotone(g, i);
    }
  }

  // ---- Chains of runs ----

  /** One run of a chain: its whole log, and how much of it was committed when it was cut off. */
  datatype Leg = Leg(log: seq<Durable>, cut: nat)

  /** Resuming keeps the events and cuts the points back to those before the boundary. */
  function Resume(a: Archive, p: ResumePoint): Archive {
    a.(points := p.storedPoints)
  }

  ghost predicate Chain(plan: ExecutionPlan, a: Archive, legs: seq<Leg>)
    decreases |legs|
  {
    legs == [] ||
    (&& legs[0].cut <= |legs[0].log|
     && RunLog(plan, a.points, legs[0].log)
     && var crashed := Extend(a, legs[0].log[..legs[0].cut]);
        ResumeAt(crashed, plan).Ok? ==> Chain(plan, Resume(crashed, ResumeAt(crashed, plan).value), legs[1..]))
  }

  function AfterChain(plan: ExecutionPlan, a: Archive, legs: seq<Leg>): Result<Archive>
    requires CutsInRange(legs)
    decreases |legs|
  {
    if legs == [] then Ok(a)
    else
      var crashed := Extend(a, legs[0].log[..legs[0].cut]);
      match ResumeAt(crashed, plan)
      case Err(e) => Err(e)
      case Ok(p) => AfterChain(plan, Resume(crashed, p), legs[1..])
  }

  /** What a leg committed before it was cut off. */
  function Committed(leg: Leg): seq<Durable>
    requires leg.cut <= |leg.log|
  {
    leg.log[..leg.cut]
  }

  predicate CutsInRange(legs: seq<Leg>) {
    forall i | 0 <= i < |legs| :: legs[i].cut <= |legs[i].log|
  }

  /** No leg stored a point before some leg, itself or an earlier one, committed a boundary. */
  predicate PointsFollowBoundary(legs: seq<Leg>)
    requires CutsInRange(legs)
  {
    forall i | 0 <= i < |legs| && PointsIn(Committed(legs[i])) > 0 :: BoundaryBy(legs, i)
  }

  predicate BoundaryBy(legs: seq<Leg>, i: nat)
    requires CutsInRange(legs) && i < |legs|
  {
    exists j | 0 <= j <= i :: !Quiet(Committed(legs[j]))
  }

  lemma PointsFollowBoundaryTail(legs: seq<Leg>)
    requires CutsInRange(legs) && legs != [] && Quiet(Committed(legs[0]))
    ensures PointsFollowBoundary(legs) <==> PointsIn(Committed(legs[0])) == 0 && PointsFollowBoundary(legs[1..])
  {
    var rest := legs[1..];
    forall i | 0 <= i < |rest| ensures BoundaryBy(rest, i) <==> BoundaryBy(legs, i + 1) {
      if BoundaryBy(rest, i) {
        var j :| 0 <= j <= i && !Quiet(Committed(rest[j]));
        var n := j + 1;
        assert !Quiet(Committed(legs[n]));
      }
      if BoundaryBy(legs, i + 1) {
        var j :| 0 <= j <= i + 1 && !Quiet(Committed(legs[j]));
        var n := j - 1;
        assert !Quiet(Committed(rest[n]));
      }
    }
    if PointsFollowBoundary(legs) {
      forall i | 0 <= i < |rest| && PointsIn(Committed(rest[i])) > 0 ensures BoundaryBy(rest, i) {
        var n := i + 1;
        assert PointsIn(Committed(legs[n])) > 0;
      }
      assert !BoundaryBy(legs, 0);
    }
    if PointsIn(Committed(legs[0])) == 0 && PointsFollowBoundary(rest) {
      forall i | 0 <= i < |legs| && PointsIn(Committed(legs[i])) > 0 ensures BoundaryBy(legs, i) {
        var n := i - 1;
        assert BoundaryBy(rest, n);
      }
    }
  }

  lemma QuietIffNoLast(h: seq<Durable>)
    ensures Quiet(h) <==> LastBoundary(h) < 0
  {
  }

  /**
   A chain of interrupted runs, each resumed at its archive's last boundary, never gets stuck if and only if no leg
   stored a point before the first boundary. The points kept are then exactly the checkpoint-producing actions before
   the resume index, so a final run that adds one point for every remaining checkpoint-producing action ends with the
   total of the plan.
   */
  lemma {:induction false} ChainConservesPoints(plan: ExecutionPlan, a: Archive, legs: seq<Leg>)
    requires InStep(plan, a) && CutsInRange(legs) && Chain(plan, a, legs)
    ensures var r := AfterChain(plan, a, legs);
            && (r.Ok? <==> HasBoundary(a, plan) || PointsFollowBoundary(legs))
            && (r.Ok? ==>
                  && InStep(plan, r.value)
                  && var next := ResumeAt(r.value, plan).value.nextActionIndex;
                     r.value.points + (Checkpoints(plan.actions) - Checkpoints(plan.actions[..next])) == Checkpoints(plan.actions))
    decreases |legs|
  {
    if legs != [] {
      var leg := legs[0];
      var crashed := Extend(a, Committed(leg));
      CrashedArchiveResumesIff(a, plan, leg.log, leg.cut);
      QuietIffNoLast(Committed(leg));
      if ResumeAt(crashed, plan).Ok? {
        var p := ResumeAt(crashed, plan).value;
        CutBackKeepsAnswer(crashed.events, plan, crashed.points);
        ChainConservesPoints(plan, Resume(crashed, p), legs[1..]);
      }
      if Quiet(Committed(leg)) {
        PointsFollowBoundaryTail(legs);
        UncoveredPoints(plan, a);
      } else {
        assert forall i | 0 <= i < |legs| :: BoundaryBy(legs, i);
      }
    }
  }

  /** An archive in step without a boundary holds no point. */
  lemma UncoveredPoints(plan: ExecutionPlan, a: Archive)
    requires InStep(plan, a)
    ensures HasBoundary(a, plan) || a.points == 0
  {
    FoundIffPresent(a.events, plan, a.points);
  }

  /** The boundary found needs no more points than it counts itself. */
  lemma {:induction false} CutBackKeepsAnswer(events: seq<LogEvent>, plan: ExecutionPlan, committed: nat)
    requires ReverseScan(events, plan, committed).Ok?
    ensures var r := ReverseScan(events, plan, committed).value;
            ReverseScan(events, plan, if r.Some? then r.value.storedPoints else 0) == Ok(r)
  {
    if events != [] && !Decisive(events[|events| - 1], plan) {
      CutBackKeepsAnswer(events[..|events| - 1], plan, committed);
    }
  }

  lemma FreshArchiveInStep(plan: ExecutionPlan)
    ensures InStep(plan, Archive([], 0))
  {
    assert plan.actions[..0] == [];
  }
}
