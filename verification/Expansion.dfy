/**
 The expansion of a recipe tree into a flat list of actions, and the budget that is checked before anything is
 expanded: the cost computed on the tree bounds what the expansion emits.
 */
module Expansion {
  import opened Outcomes

  /** The kinds of single blocks: a comment emits nothing, an explicit MOKE voltage is set up, armed and applied. */
  datatype BlockKind = Comment | Plain(checkpoint: bool, axisUpdate: bool) | MokeVoltage

  datatype Body =
    | Sequence(children: seq<Node>)
    | Repeat(count: nat, children: seq<Node>)
    | If(children: seq<Node>, otherwise: seq<Node>)
    | Sweep(axisPoints: Option<nat>, children: seq<Node>)   // bound to an axis with so many points, or unbound
    | Block(kind: BlockKind)

  datatype Node = Node(id: string, disabled: bool, body: Body)

  /** Which points of enclosing sweeps and repeats are being expanded. */
  type Path = seq<nat>

  /**
   What the expansion asks about a node in its context: which branch a condition selects, how many values a sweep has
   there, whether the sweep emits its own point actions, whether it first prepares a MOKE trajectory, and whether a
   block or a sweep is refused.
   */
  datatype Env = Env(
    condition: (string, Path) -> bool, values: (string, Path) -> nat,
    generates: (string, Path) -> bool, prepares: (string, Path) -> bool, refused: (string, Path) -> bool)

  /** One emitted action. */
  datatype Emitted = Emitted(id: string, path: Path, checkpoint: bool)

  /** An authored live update of the swept value is folded into the point action the sweep emits itself. */
  predicate IsAxisUpdate(n: Node) {
    n.body.Block? && n.body.kind.Plain? && n.body.kind.axisUpdate && !n.body.kind.checkpoint
  }

  // ---- The expansion ----

  function Generates(n: Node, env: Env, path: Path): bool {
    n.body.Sweep? && n.body.axisPoints.Some? && env.generates(n.id, path)
  }

  /** What a single block emits. */
  function BlockActions(n: Node, kind: BlockKind, path: Path): seq<Emitted> {
    match kind
    case Comment => []
    case Plain(checkpoint, _) => [Emitted(n.id, path, checkpoint)]
    case MokeVoltage => [Emitted(n.id + ".prepare", path, false), Emitted(n.id + ".arm", path, false), Emitted(n.id + ".apply", path, false)]
  }

  function Preparation(n: Node, env: Env, path: Path): seq<Emitted> {
    if n.body.Sweep? && n.body.axisPoints.Some? && env.prepares(n.id, path)
    then [Emitted(n.id + ".prepare", path, false), Emitted(n.id + ".arm", path, false)]
    else []
  }

  function Expand(n: Node, env: Env, path: Path): seq<Emitted>
    decreases n, 3, 0
  {
    if n.disabled then []
    else
      match n.body
      case Sequence(children) => ExpandFirst(n, children, |children|, env, path, false)
      case Repeat(count, children) => ExpandRounds(n, children, count, env, path, false)
      case If(children, otherwise) =>
        if env.condition(n.id, path) then ExpandFirst(n, children, |children|, env, path, false)
        else ExpandFirst(n, otherwise, |otherwise|, env, path, false)
      case Sweep(_, children) =>
        Preparation(n, env, path)
        + ExpandRounds(n, children, env.values(n.id, path), env, path, Generates(n, env, path))
      case Block(kind) => BlockActions(n, kind, path)
  }

  ghost predicate Below(parent: Node, children: seq<Node>) {
    forall i | 0 <= i < |children| :: children[i] < parent
  }

  /** The first so many rounds of a repeat or points of a sweep. */
  function ExpandRounds(parent: Node, children: seq<Node>, rounds: nat, env: Env, path: Path, generates: bool): seq<Emitted>
    requires Below(parent, children)
    decreases parent, 2, rounds
  {
    if rounds == 0 then []
    else
      var inner := path + [rounds - 1];
      ExpandRounds(parent, children, rounds - 1, env, path, generates)
      + PointAction(parent, inner, generates)
      + ExpandFirst(parent, children, |children|, env, inner, generates)
  }

  function PointAction(n: Node, inner: Path, generates: bool): seq<Emitted> {
    if generates then [Emitted(n.id, inner, false)] else []
  }

  /** The first k children. */
  function ExpandFirst(parent: Node, children: seq<Node>, k: nat, env: Env, path: Path, generates: bool): seq<Emitted>
    requires k <= |children| && Below(parent, children)
    decreases parent, 1, k
  {
    if k == 0 then []
    else
      ExpandFirst(parent, children, k - 1, env, path, generates)
      + if generates && IsAxisUpdate(children[k - 1]) then [] else Expand(children[k - 1], env, path)
  }

  /** Somewhere the expansion comes to a block or a sweep that is refused. */
  predicate Refuses(n: Node, env: Env, path: Path)
    decreases n, 3, 0
  {
    !n.disabled &&
    match n.body
    case Sequence(children) => RefusesFirst(n, children, |children|, env, path, false)
    case Repeat(count, children) => RefusesRounds(n, children, count, env, path, false)
    case If(children, otherwise) =>
      if env.condition(n.id, path) then RefusesFirst(n, children, |children|, env, path, false)
      else RefusesFirst(n, otherwise, |otherwise|, env, path, false)
    case Sweep(_, children) =>
      env.refused(n.id, path) || RefusesRounds(n, children, env.values(n.id, path), env, path, Generates(n, env, path))
    case Block(kind) => !kind.Comment? && env.refused(n.id, path)
  }

  predicate RefusesRounds(parent: Node, children: seq<Node>, rounds: nat, env: Env, path: Path, generates: bool)
    requires Below(parent, children)
    decreases parent, 2, rounds
  {
    rounds > 0 &&
    (RefusesRounds(parent, children, rounds - 1, env, path, generates)
     || RefusesFirst(parent, children, |children|, env, path + [rounds - 1], generates))
  }

  predicate RefusesFirst(parent: Node, children: seq<Node>, k: nat, env: Env, path: Path, generates: bool)
    requires k <= |children| && Below(parent, children)
    decreases parent, 1, k
  {
    k > 0 &&
    (RefusesFirst(parent, children, k - 1, env, path, generates)
     || (!(generates && IsAxisUpdate(children[k - 1])) && Refuses(children[k - 1], env, path)))
  }

  function Points(actions: seq<Emitted>): nat {
    if actions == [] then 0
    else Points(actions[..|actions| - 1]) + if actions[|actions| - 1].checkpoint then 1 else 0
  }

  // ---- The cost ----

  datatype Cost = Cost(points: nat, actions: nat) {
    function Plus(other: Cost): Cost {
      Cost(points + other.points, actions + other.actions)
    }

    function Times(factor: nat): Cost {
      Cost(points * factor, actions * factor)
    }

    function Largest(other: Cost): Cost {
      Cost(if points < other.points then other.points else points, if actions < other.actions then other.actions else actions)
    }
  }

  function CostOf(n: Node): Cost
    decreases n, 1, 0
  {
    if n.disabled then Cost(0, 0)
    else
      match n.body
      case Sequence(children) => CostOfFirst(n, children, |children|)
      case Repeat(count, children) => CostOfFirst(n, children, |children|).Times(count)
      case If(children, otherwise) =>
        CostOfFirst(n, children, |children|).Largest(CostOfFirst(n, otherwise, |otherwise|))
      case Sweep(axisPoints, children) =>
        var inner := CostOfFirst(n, children, |children|);
        if axisPoints.Some? then inner.Plus(Cost(0, 1)).Times(axisPoints.value) else inner
      case Block(kind) => Cost(if kind.Plain? && kind.checkpoint then 1 else 0, 1)
  }

  function CostOfFirst(parent: Node, children: seq<Node>, k: nat): Cost
    requires k <= |children| && Below(parent, children)
    decreases parent, 0, k
  {
    if k == 0 then Cost(0, 0) else CostOfFirst(parent, children, k - 1).Plus(CostOf(children[k - 1]))
  }

  // ---- The budget check ----

  predicate Within(c: Cost, limit: Cost) {
    c.points <= limit.points && c.actions <= limit.actions
  }

  /** No enabled node costs more than the limit. */
  predicate Affordable(n: Node, limit: Cost)
    decreases n, 1, 0
  {
    n.disabled ||
    (&& Within(CostOf(n), limit)
     && match n.body
        case Sequence(children) => AffordableFirst(n, children, |children|, limit)
        case Repeat(_, children) => AffordableFirst(n, children, |children|, limit)
        case If(children, otherwise) =>
          AffordableFirst(n, children, |children|, limit) && AffordableFirst(n, otherwise, |otherwise|, limit)
        case Sweep(_, children) => AffordableFirst(n, children, |children|, limit)
        case Block(_) => true)
  }

  predicate AffordableFirst(parent: Node, children: seq<Node>, k: nat, limit: Cost)
    requires k <= |children| && Below(parent, children)
    decreases parent, 0, k
  {
    k == 0 || (AffordableFirst(parent, children, k - 1, limit) && Affordable(children[k - 1], limit))
  }

  /** Computes the cost bottom up, and fails at the first node over the limit. */
  method CheckBudget(n: Node, limit: Cost) returns (r: Result<Cost>)
    ensures r.Ok? <==> Affordable(n, limit)
    ensures r.Ok? ==> r.value == CostOf(n)
    decreases n, 1, 0
  {
    if n.disabled {
      return Ok(Cost(0, 0));
    }
    var cost;
    match n.body {
      case Sequence(children) =>
        cost := CheckFirst(n, children, limit);
      case Repeat(count, children) =>
        cost := CheckFirst(n, children, limit);
        if cost.Ok? {
          cost := Ok(cost.value.Times(count));
        }
      case If(children, otherwise) =>
        cost := CheckFirst(n, children, limit);
        if cost.Ok? {
          var alternative := CheckFirst(n, otherwise, limit);
          cost := if alternative.Ok? then Ok(cost.value.Largest(alternative.value)) else alternative;
        }
      case Sweep(axisPoints, children) =>
        cost := CheckFirst(n, children, limit);
        if cost.Ok? && axisPoints.Some? {
          cost := Ok(cost.value.Plus(Cost(0, 1)).Times(axisPoints.value));
        }
      case Block(kind) =>
        cost := Ok(Cost(if kind.Plain? && kind.checkpoint then 1 else 0, 1));
    }
    if cost.Ok? && !Within(cost.value, limit) {
      return Err(SafetyViolation);
    }
    return cost;
  }

  method CheckFirst(parent: Node, children: seq<Node>, limit: Cost) returns (r: Result<Cost>)
    requires Below(parent, children)
    ensures r.Ok? <==> AffordableFirst(parent, children, |children|, limit)
    ensures r.Ok? ==> r.value == CostOfFirst(parent, children, |children|)
    decreases parent, 0, 0
  {
    var total := Cost(0, 0);
    for k := 0 to |children|
      invariant AffordableFirst(parent, children, k, limit) && total == CostOfFirst(parent, children, k)
    {
      var c := CheckBudget(children[k], limit);
      if c.Err? {
        NotAffordable(parent, children, k + 1, limit);
        return c;
      }
      total := total.Plus(c.value);
    }
    return Ok(total);
  }

  lemma {:induction false} NotAffordable(parent: Node, children: seq<Node>, k: nat, limit: Cost)
    requires k <= |children| && Below(parent, children) && !AffordableFirst(parent, children, k, limit)
    ensures !AffordableFirst(parent, children, |children|, limit)
    decreases |children| - k
  {
    if k < |children| {
      NotAffordable(parent, children, k + 1, limit);
    }
  }

  // ---- What the cost bounds ----

  /** Every sweep below is bound to an axis with as many points as it expands to. */
  ghost predicate BoundSweeps(n: Node, env: Env)
    decreases n, 1, 0
  {
    n.disabled ||
    match n.body
    case Sequence(children) => BoundSweepsFirst(n, children, |children|, env)
    case Repeat(_, children) => BoundSweepsFirst(n, children, |children|, env)
    case If(children, otherwise) => BoundSweepsFirst(n, children, |children|, env) && BoundSweepsFirst(n, otherwise, |otherwise|, env)
    case Sweep(axisPoints, children) =>
      && BoundSweepsFirst(n, children, |children|, env)
      && axisPoints.Some? && forall path :: env.values(n.id, path) == axisPoints.value
    case Block(_) => true
  }

  ghost predicate BoundSweepsFirst(parent: Node, children: seq<Node>, k: nat, env: Env)
    requires k <= |children| && Below(parent, children)
    decreases parent, 0, k
  {
    k == 0 || (BoundSweepsFirst(parent, children, k - 1, env) && BoundSweeps(children[k - 1], env))
  }

  predicate NoIf(n: Node)
    decreases n, 1, 0
  {
    n.disabled ||
    match n.body
    case Sequence(children) => NoIfFirst(n, children, |children|)
    case Repeat(_, children) => NoIfFirst(n, children, |children|)
    case If(_, _) => false
    case Sweep(_, children) => NoIfFirst(n, children, |children|)
    case Block(_) => true
  }

  predicate NoIfFirst(parent: Node, children: seq<Node>, k: nat)
    requires k <= |children| && Below(parent, children)
    decreases parent, 0, k
  {
    k == 0 || (NoIfFirst(parent, children, k - 1) && NoIf(children[k - 1]))
  }

  /** At most one action for each block and each point of an axis: no explicit MOKE voltage, no MOKE preparation. */
  ghost predicate OneActionEach(n: Node, env: Env)
    decreases n, 1, 0
  {
    n.disabled ||
    match n.body
    case Sequence(children) => OneActionEachFirst(n, children, |children|, env)
    case Repeat(_, children) => OneActionEachFirst(n, children, |children|, env)
    case If(children, otherwise) =>
      OneActionEachFirst(n, children, |children|, env) && OneActionEachFirst(n, otherwise, |otherwise|, env)
    case Sweep(_, children) =>
      OneActionEachFirst(n, children, |children|, env) && forall path :: !env.prepares(n.id, path)
    case Block(kind) => !kind.MokeVoltage?
  }

  ghost predicate OneActionEachFirst(parent: Node, children: seq<Node>, k: nat, env: Env)
    requires k <= |children| && Below(parent, children)
    decreases parent, 0, k
  {
    k == 0 || (OneActionEachFirst(parent, children, k - 1, env) && OneActionEach(children[k - 1], env))
  }

  lemma {:induction false} PointsOfBoth(a: seq<Emitted>, b: seq<Emitted>)
    ensures Points(a + b) == Points(a) + Points(b)
  {
    if b == [] {
      assert a + b == a;
    } else {
      PointsOfBoth(a, b[..|b| - 1]);
      assert (a + b)[..|a + b| - 1] == a + b[..|b| - 1];
    }
  }

  lemma MoreEachRound(rounds: nat, few: nat, many: nat)
    requires few <= many
    ensures few * rounds <= many * rounds
  {
  }

  lemma {:induction false} NoPoints(actions: seq<Emitted>)
    requires forall a | a in actions :: !a.checkpoint
    ensures Points(actions) == 0
  {
    if actions != [] {
      NoPoints(actions[..|actions| - 1]);
    }
  }

  lemma BlockPoints(n: Node, kind: BlockKind, path: Path)
    ensures Points(BlockActions(n, kind, path)) == if kind.Plain? && kind.checkpoint then 1 else 0
  {
    if kind.Plain? {
      assert BlockActions(n, kind, path)[..0] == [];
    } else {
      NoPoints(BlockActions(n, kind, path));
    }
  }

  lemma OneMoreRound(rounds: nat, each: nat)
    requires rounds > 0
    ensures each * rounds == each * (rounds - 1) + each
  {
  }

  /** The points emitted never exceed the cost; without a condition they equal it. */
  lemma {:induction false} PointsBounded(n: Node, env: Env, path: Path)
    requires BoundSweeps(n, env)
    ensures Points(Expand(n, env, path)) <= CostOf(n).points
    ensures NoIf(n) ==> Points(Expand(n, env, path)) == CostOf(n).points
    decreases n, 3, 0
  {
    if !n.disabled {
      match n.body
      case Sequence(children) => PointsBoundedFirst(n, children, |children|, env, path, false);
      case Repeat(count, children) => PointsBoundedRounds(n, children, count, env, path, false);
      case If(children, otherwise) =>
        PointsBoundedFirst(n, children, |children|, env, path, false);
        PointsBoundedFirst(n, otherwise, |otherwise|, env, path, false);
      case Sweep(axisPoints, children) =>
        var generates := Generates(n, env, path);
        PointsBoundedRounds(n, children, axisPoints.value, env, path, generates);
        PointsOfBoth(Preparation(n, env, path), ExpandRounds(n, children, env.values(n.id, path), env, path, generates));
        NoPoints(Preparation(n, env, path));
      case Block(kind) => BlockPoints(n, kind, path);
    }
  }

  lemma {:induction false} PointsBoundedRounds(parent: Node, children: seq<Node>, rounds: nat, env: Env, path: Path, generates: bool)
    requires Below(parent, children) && BoundSweepsFirst(parent, children, |children|, env)
    ensures Points(ExpandRounds(parent, children, rounds, env, path, generates)) <= CostOfFirst(parent, children, |children|).points * rounds
    ensures NoIfFirst(parent, children, |children|) ==>
      Points(ExpandRounds(parent, children, rounds, env, path, generates)) == CostOfFirst(parent, children, |children|).points * rounds
    decreases parent, 2, rounds
  {
    hide BoundSweepsFirst, NoIfFirst, CostOfFirst, ExpandFirst, Points, PointAction;
    var each := CostOfFirst(parent, children, |children|).points;
    if rounds == 0 {
      NoPoints([]);
      NoRounds(each);
    } else {
      var inner := path + [rounds - 1];
      PointsBoundedRounds(parent, children, rounds - 1, env, path, generates);
      PointsBoundedFirst(parent, children, |children|, env, inner, generates);
      var before, now := ExpandRounds(parent, children, rounds - 1, env, path, generates), PointAction(parent, inner, generates);
      PointActionStoresNothing(parent, inner, generates);
      PointsOfBoth(before, now);
      PointsOfBoth(before + now, ExpandFirst(parent, children, |children|, env, inner, generates));
      OneMoreRound(rounds, each);
    }
  }

  lemma NoRounds(each: nat)
    ensures each * 0 == 0
  {
  }

  lemma PointActionStoresNothing(n: Node, inner: Path, generates: bool)
    ensures Points(PointAction(n, inner, generates)) == 0
  {
    NoPoints(PointAction(n, inner, generates));
  }

  lemma {:induction false} PointsBoundedFirst(parent: Node, children: seq<Node>, k: nat, env: Env, path: Path, generates: bool)
    requires k <= |children| && Below(parent, children) && BoundSweepsFirst(parent, children, k, env)
    ensures Points(ExpandFirst(parent, children, k, env, path, generates)) <= CostOfFirst(parent, children, k).points
    ensures NoIfFirst(parent, children, k) ==>
      Points(ExpandFirst(parent, children, k, env, path, generates)) == CostOfFirst(parent, children, k).points
    decreases parent, 1, k
  {
    if k > 0 {
      PointsBoundedFirst(parent, children, k - 1, env, path, generates);
      PointsBounded(children[k - 1], env, path);
      PointsOfBoth(ExpandFirst(parent, children, k - 1, env, path, generates),
                   if generates && IsAxisUpdate(children[k - 1]) then [] else Expand(children[k - 1], env, path));
    }
  }

  /** Where every block emits at most one action, the actions emitted never exceed the cost either. */
  lemma {:induction false} ActionsBounded(n: Node, env: Env, path: Path)
    requires BoundSweeps(n, env) && OneActionEach(n, env)
    ensures |Expand(n, env, path)| <= CostOf(n).actions
    decreases n, 3, 0
  {
    if !n.disabled {
      match n.body
      case Sequence(children) => ActionsBoundedFirst(n, children, |children|, env, path, false);
      case Repeat(count, children) => ActionsBoundedRounds(n, children, count, env, path, false);
      case If(children, otherwise) =>
        ActionsBoundedFirst(n, children, |children|, env, path, false);
        ActionsBoundedFirst(n, otherwise, |otherwise|, env, path, false);
      case Sweep(axisPoints, children) =>
        var generates := Generates(n, env, path);
        ActionsBoundedRounds(n, children, axisPoints.value, env, path, generates);
        assert Preparation(n, env, path) == [];
        var each := CostOfFirst(n, children, |children|).actions;
        MoreEachRound(axisPoints.value, each + (if generates then 1 else 0), each + 1);
      case Block(_) =>
    }
  }

  lemma {:induction false} ActionsBoundedRounds(parent: Node, children: seq<Node>, rounds: nat, env: Env, path: Path, generates: bool)
    requires Below(parent, children) && BoundSweepsFirst(parent, children, |children|, env)
    requires OneActionEachFirst(parent, children, |children|, env)
    ensures |ExpandRounds(parent, children, rounds, env, path, generates)| <=
            (CostOfFirst(parent, children, |children|).actions + if generates then 1 else 0) * rounds
    decreases parent, 2, rounds
  {
    if rounds > 0 {
      ActionsBoundedRounds(parent, children, rounds - 1, env, path, generates);
      ActionsBoundedFirst(parent, children, |children|, env, path + [rounds - 1], generates);
      OneMoreRound(rounds, CostOfFirst(parent, children, |children|).actions + if generates then 1 else 0);
    }
  }

  lemma {:induction false} ActionsBoundedFirst(parent: Node, children: seq<Node>, k: nat, env: Env, path: Path, generates: bool)
    requires k <= |children| && Below(parent, children) && BoundSweepsFirst(parent, children, k, env)
    requires OneActionEachFirst(parent, children, k, env)
    ensures |ExpandFirst(parent, children, k, env, path, generates)| <= CostOfFirst(parent, children, k).actions
    decreases parent, 1, k
  {
    if k > 0 {
      ActionsBoundedFirst(parent, children, k - 1, env, path, generates);
      ActionsBounded(children[k - 1], env, path);
    }
  }

  /** The bounds need their fragment: an unbound sweep can store more points than its cost, */
  lemma UnboundSweepExceedsCost(id: string)
    ensures var unbound := Node(id, false, Sweep(None, [Node(id, false, Block(Plain(true, false)))]));
            var env := Env((_, _) => true, (_, _) => 2, (_, _) => false, (_, _) => false, (_, _) => false);
            Points(Expand(unbound, env, [])) > CostOf(unbound).points
  {
    var leaf := Node(id, false, Block(Plain(true, false)));
    var unbound := Node(id, false, Sweep(None, [leaf]));
    var env := Env((_, _) => true, (_, _) => 2, (_, _) => false, (_, _) => false, (_, _) => false);
    TwoRounds(unbound, leaf, env);
    BlockPoints(leaf, leaf.body.kind, [0]);
    BlockPoints(leaf, leaf.body.kind, [1]);
    PointsOfBoth(Expand(leaf, env, [0]), Expand(leaf, env, [1]));
    assert CostOf(unbound) == CostOfFirst(unbound, [leaf], 1) == CostOfFirst(unbound, [leaf], 0).Plus(CostOf(leaf));
  }

  lemma TwoRounds(n: Node, leaf: Node, env: Env)
    requires n.body == Sweep(None, [leaf]) && !n.disabled && env.values(n.id, []) == 2
    ensures Expand(n, env, []) == Expand(leaf, env, [0]) + Expand(leaf, env, [1])
  {
    assert n.body.children[0] == leaf;
    OnlyChild(n, leaf, env, [0], false);
    OnlyChild(n, leaf, env, [1], false);
    var path: Path := [];
    assert path + [0] == [0] && path + [1] == [1];
    var first, second := Expand(leaf, env, [0]), Expand(leaf, env, [1]);
    assert ExpandRounds(n, [leaf], 1, env, path, false) == ExpandRounds(n, [leaf], 0, env, path, false) + [] + first;
    assert ExpandRounds(n, [leaf], 2, env, path, false) == first + second;
  }

  lemma OnlyChild(parent: Node, leaf: Node, env: Env, path: Path, generates: bool)
    requires leaf < parent && !(generates && IsAxisUpdate(leaf))
    ensures ExpandFirst(parent, [leaf], 1, env, path, generates) == Expand(leaf, env, path)
  {
    assert ExpandFirst(parent, [leaf], 0, env, path, generates) == [];
  }

  /** an explicit MOKE voltage is one block and three actions, */
  lemma MokeVoltageExceedsCost(id: string, env: Env)
    ensures var voltage := Node(id, false, Block(MokeVoltage));
            BoundSweeps(voltage, env) && |Expand(voltage, env, [])| == 3 > CostOf(voltage).actions == 1
  {
  }

  /** and a MOKE sweep that prepares itself emits two actions that its cost does not count. */
  lemma MokeSweepExceedsCost(n: Node, points: nat, env: Env, path: Path)
    requires n.body == Sweep(Some(points), []) && !n.disabled
    requires env.prepares(n.id, path) && env.generates(n.id, path) && env.values(n.id, path) == points
    ensures |Expand(n, env, path)| == CostOf(n).actions + 2
  {
    hide Expand, ExpandRounds, CostOf, CostOfFirst, Preparation;
    SweepUnfolds(n, env, path);
    EmptyRounds(n, points, env, path);
    EmptySweepCost(n, points);
  }

  lemma SweepUnfolds(n: Node, env: Env, path: Path)
    requires n.body.Sweep? && n.body.axisPoints.Some? && !n.disabled && env.prepares(n.id, path)
    ensures |Expand(n, env, path)| ==
            2 + |ExpandRounds(n, n.body.children, env.values(n.id, path), env, path, env.generates(n.id, path))|
  {
    hide ExpandRounds;
    assert |Preparation(n, env, path)| == 2;
  }

  lemma EmptySweepCost(n: Node, points: nat)
    requires n.body == Sweep(Some(points), []) && !n.disabled
    ensures CostOf(n).actions == points
  {
    var inner := CostOfFirst(n, n.body.children, |n.body.children|);
    NoCost(n);
    assert inner == Cost(0, 0);
    var each := inner.Plus(Cost(0, 1));
    assert each.actions == 1;
    assert CostOf(n) == each.Times(points);
    OneEach(each, points);
  }

  lemma NoCost(n: Node)
    ensures CostOfFirst(n, [], 0) == Cost(0, 0)
  {
    hide CostOf;
  }

  lemma OneEach(each: Cost, factor: nat)
    requires each.actions == 1
    ensures each.Times(factor).actions == factor
  {
    assert each.Times(factor).actions == each.actions * factor;
  }

  lemma {:induction false} EmptyRounds(n: Node, rounds: nat, env: Env, path: Path)
    ensures |ExpandRounds(n, [], rounds, env, path, true)| == rounds
  {
    if rounds > 0 {
      EmptyRounds(n, rounds - 1, env, path);
      assert ExpandFirst(n, [], 0, env, path + [rounds - 1], true) == [];
    }
  }

  // ---- The visit ----

  /**
   Appends what a node expands to, and gives up at the entry of a node once the limit is exceeded, or where a block or
   a sweep is refused.
   */
  method Visit(n: Node, env: Env, path: Path, actions: seq<Emitted>, mostActions: nat) returns (r: Result<seq<Emitted>>)
    ensures r.Ok? ==> r.value == actions + Expand(n, env, path) && !Refuses(n, env, path)
    ensures |actions| + |Expand(n, env, path)| <= mostActions && !Refuses(n, env, path) ==> r.Ok?
    decreases n, 3, 0
  {
    if n.disabled {
      return Ok(actions);
    }
    if |actions| > mostActions {
      return Err(SafetyViolation);
    }
    match n.body {
      case Sequence(children) =>
        r := VisitChildren(n, children, env, path, actions, mostActions, false);
      case Repeat(count, children) =>
        r := VisitRounds(n, children, count, env, path, actions, mostActions, false);
      case If(children, otherwise) =>
        r := VisitChildren(n, if env.condition(n.id, path) then children else otherwise, env, path, actions, mostActions, false);
      case Sweep(_, children) =>
        if env.refused(n.id, path) {
          return Err(ConfigurationError);
        }
        var prepared := actions + Preparation(n, env, path);
        r := VisitRounds(n, children, env.values(n.id, path), env, path, prepared, mostActions, Generates(n, env, path));
      case Block(kind) =>
        if !kind.Comment? && env.refused(n.id, path) {
          return Err(ConfigurationError);
        }
        r := Ok(actions + BlockActions(n, kind, path));
    }
  }

  method VisitRounds(parent: Node, children: seq<Node>, rounds: nat, env: Env, path: Path, actions: seq<Emitted>, mostActions: nat, generates: bool)
    returns (r: Result<seq<Emitted>>)
    requires Below(parent, children)
    ensures r.Ok? ==> r.value == actions + ExpandRounds(parent, children, rounds, env, path, generates)
    ensures r.Ok? ==> !RefusesRounds(parent, children, rounds, env, path, generates)
    ensures !RefusesRounds(parent, children, rounds, env, path, generates) &&
            |actions| + |ExpandRounds(parent, children, rounds, env, path, generates)| <= mostActions ==>
              r.Ok?
    decreases parent, 2, 0
  {
    r := Ok(actions);
    for round := 0 to rounds
      invariant r.Ok? && r.value == actions + ExpandRounds(parent, children, round, env, path, generates)
      invariant !RefusesRounds(parent, children, round, env, path, generates)
    {
      RoundsGrow(parent, children, round + 1, rounds, env, path, generates);
      var inner := path + [round];
      var before := r.value + PointAction(parent, inner, generates);
      r := VisitChildren(parent, children, env, inner, before, mostActions, generates);
      if r.Err? {
        return;
      }
    }
  }

  lemma {:induction false} RoundsGrow(parent: Node, children: seq<Node>, few: nat, many: nat, env: Env, path: Path, generates: bool)
    requires few <= many && Below(parent, children)
    ensures |ExpandRounds(parent, children, few, env, path, generates)| <= |ExpandRounds(parent, children, many, env, path, generates)|
    ensures RefusesRounds(parent, children, few, env, path, generates) ==> RefusesRounds(parent, children, many, env, path, generates)
    decreases many
  {
    if few < many {
      RoundsGrow(parent, children, few, many - 1, env, path, generates);
    }
  }

  lemma {:induction false} ChildrenGrow(parent: Node, children: seq<Node>, few: nat, many: nat, env: Env, path: Path, generates: bool)
    requires few <= many <= |children| && Below(parent, children)
    ensures |ExpandFirst(parent, children, few, env, path, generates)| <= |ExpandFirst(parent, children, many, env, path, generates)|
    ensures RefusesFirst(parent, children, few, env, path, generates) ==> RefusesFirst(parent, children, many, env, path, generates)
    decreases many
  {
    if few < many {
      ChildrenGrow(parent, children, few, many - 1, env, path, generates);
    }
  }

  method VisitChildren(parent: Node, children: seq<Node>, env: Env, path: Path, actions: seq<Emitted>, mostActions: nat, generates: bool)
    returns (r: Result<seq<Emitted>>)
    requires Below(parent, children)
    ensures r.Ok? ==> r.value == actions + ExpandFirst(parent, children, |children|, env, path, generates)
    ensures r.Ok? ==> !RefusesFirst(parent, children, |children|, env, path, generates)
    ensures !RefusesFirst(parent, children, |children|, env, path, generates) &&
            |actions| + |ExpandFirst(parent, children, |children|, env, path, generates)| <= mostActions ==>
              r.Ok?
    decreases parent, 1, 0
  {
    hide Expand, IsAxisUpdate, Refuses;
    r := Ok(actions);
    for k := 0 to |children|
      invariant r.Ok? && r.value == actions + ExpandFirst(parent, children, k, env, path, generates)
      invariant !RefusesFirst(parent, children, k, env, path, generates)
    {
      ChildrenGrow(parent, children, k + 1, |children|, env, path, generates);
      if !(generates && IsAxisUpdate(children[k])) {
        r := Visit(children[k], env, path, r.value, mostActions);
        if r.Err? {
          return;
        }
      }
    }
  }

  /** Authored live updates of the swept value, and nothing else. */
  predicate OnlyUpdates(children: seq<Node>) {
    forall i | 0 <= i < |children| ::
      !children[i].disabled && children[i].body.Block? && children[i].body.kind.Plain?
      && children[i].body.kind.axisUpdate && !children[i].body.kind.checkpoint
  }

  lemma {:induction false} UpdatesAsChildren(parent: Node, children: seq<Node>, k: nat, env: Env, path: Path, generates: bool)
    requires k <= |children| && Below(parent, children) && OnlyUpdates(children)
    ensures |ExpandFirst(parent, children, k, env, path, generates)| == if generates then 0 else k
  {
    if k > 0 {
      UpdatesAsChildren(parent, children, k - 1, env, path, generates);
    }
  }

  lemma {:induction false} UpdatesInRounds(parent: Node, children: seq<Node>, rounds: nat, env: Env, path: Path, generates: bool)
    requires Below(parent, children) && OnlyUpdates(children)
    ensures var emitted := ExpandRounds(parent, children, rounds, env, path, generates);
            && |emitted| == (if generates then rounds else rounds * |children|)
            && (generates ==> forall i | 0 <= i < rounds :: emitted[i] == Emitted(parent.id, path + [i], false))
  {
    if rounds > 0 {
      UpdatesInRounds(parent, children, rounds - 1, env, path, generates);
      UpdatesAsChildren(parent, children, |children|, env, path + [rounds - 1], generates);
      assert rounds * |children| == (rounds - 1) * |children| + |children|;
    }
  }

  /**
   A sweep that emits its own point actions takes the place of the updates that are authored in it: exactly one action per
   value, in order. Any other sweep emits the authored ones.
   */
  lemma PointActionsReplaceUpdates(n: Node, env: Env, path: Path)
    requires !n.disabled && n.body.Sweep? && OnlyUpdates(n.body.children) && !env.prepares(n.id, path)
    ensures var emitted, values := Expand(n, env, path), env.values(n.id, path);
            if n.body.axisPoints.Some? && env.generates(n.id, path)
            then |emitted| == values && forall i | 0 <= i < values :: emitted[i] == Emitted(n.id, path + [i], false)
            else |emitted| == values * |n.body.children|
  {
    hide ExpandRounds, OnlyUpdates;
    var rounds := ExpandRounds(n, n.body.children, env.values(n.id, path), env, path, Generates(n, env, path));
    assert Expand(n, env, path) == [] + rounds == rounds;
    UpdatesInRounds(n, n.body.children, env.values(n.id, path), env, path, Generates(n, env, path));
  }

  /** A recipe within its budget expands, and stays within the limits of checkpoints and of actions. */
  lemma BudgetIsKept(root: Node, env: Env, limit: Cost)
    requires !root.disabled && Affordable(root, limit) && BoundSweeps(root, env)
    ensures Points(Expand(root, env, [])) <= limit.points
    ensures OneActionEach(root, env) ==> |Expand(root, env, [])| <= limit.actions
  {
    PointsBounded(root, env, []);
    if OneActionEach(root, env) {
      ActionsBounded(root, env, []);
    }
  }
}
