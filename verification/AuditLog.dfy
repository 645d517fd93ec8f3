/**
 The audit log: callers admit records under a lock, one writer thread puts them on disk, and the first failure of any
 kind is final. Every method of the logger below is one atomic step of one thread; the steps of callers and writer
 may alternate in any order.
 */
module AuditLog {
  import opened Outcomes

  // ---- Text ----

  /** The first n records, a line each. */
  function Lines(encoded: seq<string>, n: nat): string
    requires n <= |encoded|
  {
    if n == 0 then "" else Lines(encoded, n - 1) + (encoded[n - 1] + "\n")
  }

  lemma {:induction false} LinesPrefix(few: seq<string>, many: seq<string>, n: nat)
    requires n <= |few| <= |many| && many[..|few|] == few
    ensures Lines(few, n) == Lines(many, n)
  {
    if n > 0 {
      LinesPrefix(few, many, n - 1);
      assert many[..|few|][n - 1] == many[n - 1];
    }
  }

  lemma LinesKept(few: seq<string>, many: seq<string>)
    requires |few| <= |many| && many[..|few|] == few
    ensures forall n: nat | n <= |few| :: Lines(few, n) == Lines(many, n)
  {
    forall n: nat | n <= |few| ensures Lines(few, n) == Lines(many, n) {
      LinesPrefix(few, many, n);
    }
  }

  lemma {:induction false} LinesGrow(encoded: seq<string>, m: nat, n: nat)
    requires m <= n <= |encoded|
    ensures |Lines(encoded, m)| <= |Lines(encoded, n)| && Lines(encoded, n)[..|Lines(encoded, m)|] == Lines(encoded, m)
    decreases n
  {
    if m < n {
      LinesGrow(encoded, m, n - 1);
      assert Lines(encoded, n)[..|Lines(encoded, n - 1)|] == Lines(encoded, n - 1);
    }
  }

  // ---- The queue ----

  /**
   A request to the writer: a record, or none for a mere flush. `upTo` counts the records admitted up to and including
   this request; it serves the specification alone.
   */
  datatype Item = Item(record: Option<string>, critical: bool, ack: Option<nat>, upTo: nat)

  const CAPACITY := 10000

  function Carries(item: Item): nat {
    if item.record.Some? then 1 else 0
  }

  /** Request j follows the one before it without a gap, and carries the record in its place. */
  predicate Linked(queue: seq<Item>, taken: nat, encoded: seq<string>, j: int) {
    && 0 <= j < |queue|
    && queue[j].upTo == (if j == 0 then taken else queue[j - 1].upTo) + Carries(queue[j])
    && queue[j].upTo <= |encoded|
    && (queue[j].record.Some? ==> queue[j].record.value == encoded[queue[j].upTo - 1])
  }

  /** The requests in the queue, from `taken` records on, end with the last admitted record. */
  predicate Queued(queue: seq<Item>, taken: nat, encoded: seq<string>) {
    && (forall j | 0 <= j < |queue| :: Linked(queue, taken, encoded, j))
    && (if queue == [] then taken else queue[|queue| - 1].upTo) == |encoded|
  }

  lemma QueuedPush(queue: seq<Item>, taken: nat, encoded: seq<string>, item: Item, more: seq<string>)
    requires Queued(queue, taken, encoded) && more == encoded + (if item.record.Some? then [item.record.value] else [])
    requires item.upTo == |more|
    ensures Queued(queue + [item], taken, more)
  {
    forall j | 0 <= j < |queue + [item]| ensures Linked(queue + [item], taken, more, j) {
      assert j < |queue| ==> Linked(queue, taken, encoded, j);
    }
  }

  lemma QueuedPop(queue: seq<Item>, taken: nat, encoded: seq<string>)
    requires queue != [] && Queued(queue, taken, encoded)
    ensures Queued(queue[1..], queue[0].upTo, encoded)
    ensures queue[0].upTo == taken + Carries(queue[0]) && queue[0].upTo <= |encoded|
    ensures queue[0].record.Some? ==> queue[0].record.value == encoded[taken]
  {
    assert Linked(queue, taken, encoded, 0);
    forall j | 0 <= j < |queue[1..]| ensures Linked(queue[1..], queue[0].upTo, encoded, j) {
      assert Linked(queue, taken, encoded, j + 1);
    }
  }

  // ---- The state of the protocol ----

  /** Where the writer is with its current request. */
  datatype Phase = Idle | Got(item: Item) | Healthy(item: Item) | Wrote(item: Item) | Flushed(item: Item) | Settling(item: Item) | Leaving | Gone

  /**
   Everything that callers and writer share, and what the specification adds to it: the admitted records, how many of
   them the writer has taken and handed over whole, what a failed write left of the next one, how much text is durable,
   and for each acknowledgement how many records it stands for.
   */
  datatype State = State(
    closed: bool, failed: bool, stop: bool, queue: seq<Item>, phase: Phase, acks: set<nat>, nextAck: nat,
    text: string, onDisk: nat,
    encoded: seq<string>, taken: nat, written: nat, partial: string, synced: nat, issued: map<nat, nat>)

  /** The text is the first records as whole lines, and after a failed write perhaps the beginning of the next. */
  predicate TextValid(s: State) {
    && s.written <= |s.encoded|
    && s.text == Lines(s.encoded, s.written) + s.partial
    && (s.partial != "" ==> s.failed && s.written < |s.encoded| && s.partial <= s.encoded[s.written] + "\n")
    && s.synced <= s.onDisk <= |s.text|
  }

  predicate ItemValid(s: State, item: Item) {
    && item.upTo <= |s.encoded|
    && (item.record.Some? ==> 0 < item.upTo && item.record.value == s.encoded[item.upTo - 1])
    && (item.ack.Some? ==> item.critical && item.ack.value in s.issued && s.issued[item.ack.value] == item.upTo)
  }

  /** While nothing failed, all that was taken has been handed over, and has left the buffers. */
  predicate UpToDate(s: State) {
    !s.failed ==> s.written == s.taken && s.onDisk == |s.text|
  }

  predicate PhaseValid(s: State) {
    match s.phase
    case Idle => UpToDate(s)
    case Got(item) =>
      s.taken == item.upTo && ItemValid(s, item) && (!s.failed ==> s.written + Carries(item) == s.taken && s.onDisk == |s.text|)
    case Healthy(item) => s.taken == item.upTo && ItemValid(s, item) && s.written + Carries(item) == s.taken && s.partial == ""
    case Wrote(item) => s.taken == item.upTo && ItemValid(s, item) && (!s.failed ==> s.written == s.taken)
    case Flushed(item) => s.taken == item.upTo && ItemValid(s, item) && UpToDate(s)
    case Settling(item) =>
      s.taken == item.upTo && ItemValid(s, item) && UpToDate(s) && (!s.failed && item.critical ==> s.synced == |s.text|)
    case Leaving => s.queue == [] && s.stop && UpToDate(s)
    case Gone => s.queue == [] && s.stop && UpToDate(s)
  }

  ghost predicate AcksValid(s: State) {
    && (forall a: nat :: a in s.issued <==> a < s.nextAck) && (forall a | a in s.issued :: s.issued[a] <= |s.encoded|)
    && (forall a | a in s.acks :: a in s.issued)
    && (!s.failed ==> forall a | a in s.acks :: |Lines(s.encoded, s.issued[a])| <= s.synced)
  }

  predicate QueueValid(s: State) {
    && Queued(s.queue, s.taken, s.encoded)
    && (forall j | 0 <= j < |s.queue| :: ItemValid(s, s.queue[j]))
    && (s.stop ==> s.closed)
  }

  /** What holds between any two steps. */
  ghost predicate Valid(s: State) {
    TextValid(s) && PhaseValid(s) && AcksValid(s) && QueueValid(s)
  }

  /** What no step takes back: records keep their place, failure is final, and what is on disk or durable stays so. */
  predicate Forward(s: State, t: State) {
    && |s.encoded| <= |t.encoded| && t.encoded[..|s.encoded|] == s.encoded
    && |s.text| <= |t.text| && t.text[..|s.text|] == s.text
    && (s.failed ==> t.failed) && (s.closed ==> t.closed && t.encoded == s.encoded)
    && s.synced <= t.synced && s.onDisk <= t.onDisk
    && (forall a | a in s.issued :: a in t.issued && t.issued[a] == s.issued[a])
  }

  const START := State(false, false, false, [], Idle, {}, 0, "", 0, [], 0, 0, "", 0, map[])

  // ---- The steps ----

  /** A request enters the queue. */
  function Admitted(s: State, record: Option<string>, critical: bool, wait: bool): State {
    var more := s.encoded + (if record.Some? then [record.value] else []);
    var item := Item(record, critical, if wait then Some(s.nextAck) else None, |more|);
    s.(queue := s.queue + [item], encoded := more,
       issued := if wait then s.issued[s.nextAck := |more|] else s.issued, nextAck := if wait then s.nextAck + 1 else s.nextAck)
  }

  lemma AdmissionKeepsText(s: State, t: State)
    requires TextValid(s) && AcksValid(s)
    requires |s.encoded| <= |t.encoded| && t.encoded[..|s.encoded|] == s.encoded
    requires t.text == s.text && t.written == s.written && t.partial == s.partial && t.failed == s.failed
    requires t.synced == s.synced && t.onDisk == s.onDisk && t.acks == s.acks
    requires (forall a: nat :: a in t.issued <==> a < t.nextAck) && forall a | a in t.issued :: t.issued[a] <= |t.encoded|
    requires forall a | a in s.issued :: a in t.issued && t.issued[a] == s.issued[a]
    ensures TextValid(t) && AcksValid(t)
  {
    LinesKept(s.encoded, t.encoded);
    assert s.partial != "" ==> t.encoded[..|s.encoded|][s.written] == t.encoded[s.written];
  }

  lemma AdmissionKeeps(s: State, record: Option<string>, critical: bool, wait: bool)
    requires Valid(s) && !s.closed && !s.failed && (wait ==> critical)
    ensures Valid(Admitted(s, record, critical, wait)) && Forward(s, Admitted(s, record, critical, wait))
  {
    var t := Admitted(s, record, critical, wait);
    AdmissionKeepsText(s, t);
    hide Lines, TextValid, Queued;
    var item := t.queue[|s.queue|];
    QueuedPush(s.queue, s.taken, s.encoded, item, t.encoded);
    ItemsStayValid(s, t);
    forall j | 0 <= j < |t.queue| ensures ItemValid(t, t.queue[j]) {
      assert j < |s.queue| ==> t.queue[j] == s.queue[j];
    }
  }

  lemma ItemsStayValid(s: State, t: State)
    requires |s.encoded| <= |t.encoded| && t.encoded[..|s.encoded|] == s.encoded
    requires forall a | a in s.issued :: a in t.issued && t.issued[a] == s.issued[a]
    ensures forall x | ItemValid(s, x) :: ItemValid(t, x)
  {
    forall x | ItemValid(s, x) ensures ItemValid(t, x) {
      assert x.record.Some? ==> t.encoded[..|s.encoded|][x.upTo - 1] == t.encoded[x.upTo - 1];
    }
  }

  /** The first failure is final. */
  lemma FailureKeeps(s: State)
    requires Valid(s)
    ensures Valid(s.(failed := true)) && Forward(s, s.(failed := true))
  {
  }

  function Took(s: State): State
    requires s.queue != []
  {
    s.(queue := s.queue[1..], phase := Got(s.queue[0]), taken := s.queue[0].upTo)
  }

  lemma TakingKeeps(s: State)
    requires Valid(s) && s.phase.Idle? && s.queue != []
    ensures Valid(Took(s)) && Forward(s, Took(s))
  {
    QueuedPop(s.queue, s.taken, s.encoded);
    assert ItemValid(s, s.queue[0]);
    forall j | 0 <= j < |s.queue[1..]| ensures ItemValid(s, s.queue[1..][j]) {
      assert s.queue[1..][j] == s.queue[j + 1];
    }
  }

  /** A line handed to the stream, as a whole or broken off after n characters; some of the buffer may have left. */
  function Handed(s: State, line: string, whole: bool, left: nat): State
    requires s.phase.Healthy?
  {
    s.(text := s.text + line, onDisk := left, failed := s.failed || !whole,
       written := if whole then s.taken else s.written, partial := if whole then "" else line,
       phase := if whole then Wrote(s.phase.item) else Settling(s.phase.item))
  }

  lemma HandingKeeps(s: State, line: string, whole: bool, left: nat)
    requires Valid(s) && s.phase.Healthy? && s.phase.item.record.Some?
    requires line <= s.phase.item.record.value + "\n" && (whole ==> line == s.phase.item.record.value + "\n")
    requires s.onDisk <= left <= |s.text + line|
    ensures Valid(Handed(s, line, whole, left)) && Forward(s, Handed(s, line, whole, left))
  {
    var t := Handed(s, line, whole, left);
    assert s.text == Lines(s.encoded, s.written) + "";
    assert s.phase.item.record.value == s.encoded[s.written];
    if whole {
      assert t.text == Lines(s.encoded, s.written) + (s.encoded[s.written] + "\n");
      assert Lines(s.encoded, s.written + 1) == Lines(s.encoded, s.written) + (s.encoded[s.written] + "\n");
      assert t.text == Lines(t.encoded, t.written) + "";
    }
    forall x | ItemValid(s, x) ensures ItemValid(t, x) {
    }
  }

  /** The acknowledgement of a request, whatever became of it. */
  function Acknowledged(s: State): State
    requires s.phase.Settling?
  {
    s.(acks := if s.phase.item.ack.Some? then s.acks + {s.phase.item.ack.value} else s.acks, phase := Idle)
  }

  lemma AcknowledgingKeeps(s: State)
    requires Valid(s) && s.phase.Settling?
    ensures Valid(Acknowledged(s)) && Forward(s, Acknowledged(s))
  {
    var t := Acknowledged(s);
    if !s.failed && s.phase.item.ack.Some? {
      assert |s.text| == |Lines(s.encoded, s.written)| + |s.partial|;
    }
    forall x | ItemValid(s, x) ensures ItemValid(t, x) {
    }
  }

  /** The writer moves on, more text leaves the buffers or becomes durable, and perhaps something fails. */
  predicate Progresses(s: State, t: State) {
    && t == s.(phase := t.phase, onDisk := t.onDisk, synced := t.synced, failed := t.failed)
    && s.onDisk <= t.onDisk <= |s.text| && s.synced <= t.synced <= t.onDisk && (s.failed ==> t.failed)
  }

  lemma ProgressKeeps(s: State, t: State)
    requires Valid(s) && Progresses(s, t) && PhaseValid(t)
    ensures Valid(t) && Forward(s, t)
  {
    ItemsStayValid(s, t);
  }

  /** All buffered text has left the buffers, or the call failed. */
  lemma DrainKeeps(s: State, t: State)
    requires Valid(s) && Progresses(s, t) && (!t.failed ==> t.onDisk == |t.text|)
    requires s.phase.Wrote? && (t.phase == Flushed(s.phase.item) || (t.failed && t.phase == Settling(s.phase.item)))
    ensures Valid(t) && Forward(s, t)
  {
    ItemsStayValid(s, t);
    ProgressKeeps(s, t);
  }

  /** What is on disk is durable, or need not be, or the call failed. */
  lemma SyncKeeps(s: State, t: State)
    requires Valid(s) && Progresses(s, t) && s.phase.Flushed? && t.phase == Settling(s.phase.item)
    requires !t.failed && s.phase.item.critical ==> t.synced == t.onDisk
    ensures Valid(t) && Forward(s, t)
  {
    ItemsStayValid(s, t);
    ProgressKeeps(s, t);
  }

  lemma Bounds(s: State)
    requires Valid(s)
    ensures s.synced <= s.onDisk <= |s.text|
    ensures s.phase.Healthy? ==> s.partial == "" && s.taken == s.phase.item.upTo
  {
  }

  // ---- What the state guarantees ----

  /** The file holds what has left the buffers. */
  function FileText(s: State): string
    requires s.onDisk <= |s.text|
  {
    s.text[..s.onDisk]
  }

  /** The first n records are in the file, and durable. */
  predicate Durable(s: State, n: nat) {
    && n <= |s.encoded| && s.synced <= s.onDisk <= |s.text|
    && |Lines(s.encoded, n)| <= s.synced && FileText(s)[..|Lines(s.encoded, n)|] == Lines(s.encoded, n)
  }

  lemma TextIsPrefixOfRecords(s: State)
    requires Valid(s)
    ensures s.text <= Lines(s.encoded, |s.encoded|)
  {
    LinesGrow(s.encoded, s.written, |s.encoded|);
    var all := Lines(s.encoded, |s.encoded|);
    if s.partial != "" {
      LinesGrow(s.encoded, s.written + 1, |s.encoded|);
      var next := Lines(s.encoded, s.written + 1);
      assert next == Lines(s.encoded, s.written) + (s.encoded[s.written] + "\n");
      assert s.text <= next && next <= all;
    } else {
      assert s.text == Lines(s.encoded, s.written);
    }
  }

  /** A successful wait: the acknowledged record and all earlier ones are durable. */
  lemma AcknowledgedIsDurable(s: State, a: nat)
    requires Valid(s) && a in s.acks && !s.failed
    ensures a in s.issued && Durable(s, s.issued[a])
  {
    TextIsPrefixOfRecords(s);
    var n := s.issued[a];
    LinesGrow(s.encoded, n, |s.encoded|);
    var all, want := Lines(s.encoded, |s.encoded|), Lines(s.encoded, n);
    assert |want| <= s.synced <= s.onDisk <= |s.text| <= |all|;
    assert s.text == all[..|s.text|];
    assert FileText(s)[..|want|] == all[..|want|];
  }

  lemma DurableStays(s: State, t: State, n: nat)
    requires Durable(s, n) && Forward(s, t) && Valid(t)
    ensures Durable(t, n)
  {
    LinesPrefix(s.encoded, t.encoded, n);
    var want := |Lines(s.encoded, n)|;
    assert FileText(t)[..want] == t.text[..|s.text|][..want];
    assert FileText(s)[..want] == s.text[..want];
  }

  /** A writer that has gone without a failure has left every admitted record in the file. */
  lemma GoneMeansAllOnDisk(s: State)
    requires Valid(s) && s.phase.Gone? && !s.failed
    ensures FileText(s) == Lines(s.encoded, |s.encoded|)
  {
  }

  /**
   A flush of a logger that another thread is closing answers at once: here its last record has been admitted, nothing
   has failed, and nothing is in the file yet.
   */
  lemma FlushAfterClosePromisesNothing(event: string)
    ensures var s := Admitted(START, Some(event), true, false).(closed := true);
            && Valid(s) && Forward(START, s) && s.closed && !s.failed && |s.encoded| == 1
            && FileText(s) == "" && !Durable(s, 1)
  {
    assert Valid(START) by {
      assert START.text == Lines([], 0) + "";
    }
    AdmissionKeeps(START, Some(event), true, false);
    assert Lines([event], 1) == Lines([event], 0) + (event + "\n");
  }

  // ---- Promises made by normal returns ----

  /** What a normal return tells the caller: so many records are durable, or all of them are in the file for good. */
  datatype Promise = MadeDurable(records: nat) | AllInFile

  predicate Holds(s: State, p: Promise) {
    && s.onDisk <= |s.text|
    && match p
       case MadeDurable(n) => Durable(s, n)
       case AllInFile => s.closed && FileText(s) == Lines(s.encoded, |s.encoded|)
  }

  predicate Kept(s: State, promises: seq<Promise>) {
    forall i | 0 <= i < |promises| :: Holds(s, promises[i])
  }

  lemma PromiseStays(s: State, t: State, p: Promise)
    requires Valid(t) && Forward(s, t) && Holds(s, p)
    ensures Holds(t, p)
  {
    match p
    case MadeDurable(n) => DurableStays(s, t, n);
    case AllInFile =>
      TextIsPrefixOfRecords(t);
      assert FileText(t) == t.text;
  }

  lemma StillKept(s: State, t: State, promises: seq<Promise>)
    requires Valid(t) && Forward(s, t) && Kept(s, promises)
    ensures Kept(t, promises)
  {
    forall i | 0 <= i < |promises| ensures Holds(t, promises[i]) {
      PromiseStays(s, t, promises[i]);
    }
  }

  /** A step of some thread; the flags say how its calls into the system end. */
  datatype Move =
    | Recording(event: string, critical: bool, waitDurable: bool)
    | Flushing
    | Waiting(ack: nat, timedOut: bool)
    | Closing(event: string)
    | Stopping
    | Joining
    | Writing(succeeds: bool)

  // ---- The logger ----

  class AuditLogger {
    var sequence: nat
    var closed: bool
    var failed: bool
    var stop: bool
    var queue: seq<Item>
    var phase: Phase
    var acks: set<nat>
    var nextAck: nat
    var text: string
    var onDisk: nat
    ghost var encoded: seq<string>
    ghost var taken: nat
    ghost var written: nat
    ghost var partial: string
    ghost var synced: nat
    ghost var issued: map<nat, nat>

    ghost function Now(): State
      reads this
    {
      State(closed, failed, stop, queue, phase, acks, nextAck, text, onDisk, encoded, taken, written, partial, synced, issued)
    }

    ghost predicate Ready()
      reads this
    {
      Valid(Now()) && sequence == |encoded|
    }

    constructor ()
      ensures Ready() && Now() == START
    {
      sequence, closed, failed, stop, queue, phase, acks, nextAck := 0, false, false, false, [], Idle, {}, 0;
      text, onDisk, encoded, taken, written, partial, synced, issued := "", 0, [], 0, 0, "", 0, map[];
    }

    // ---- Callers, each under the lock ----

    /** Storage failure is exposed to every caller. */
    method CheckHealth() returns (o: Outcome)
      ensures o.Done? <==> !failed
    {
      o := if failed then Raised(ExecutionError) else Done;
    }

    method Fail()
      requires Ready()
      modifies this`failed
      ensures Ready() && Now() == old(Now()).(failed := true) && Forward(old(Now()), Now())
    {
      FailureKeeps(Now());
      failed := true;
    }

    /** Admits a request and its place in the order together. */
    method Admit(record: Option<string>, critical: bool, wait: bool) returns (ack: Option<nat>)
      requires Ready() && !closed && !failed && |queue| < CAPACITY && (wait ==> critical)
      modifies this
      ensures Ready() && Forward(old(Now()), Now())
      ensures Now() == Admitted(old(Now()), record, critical, wait) && ack == if wait then Some(old(nextAck)) else None
    {
      hide Valid, Forward;
      AdmissionKeeps(Now(), record, critical, wait);
      ack := if wait then Some(nextAck) else None;
      sequence := if record.Some? then sequence + 1 else sequence;
      queue := queue + [Item(record, critical, ack, sequence)];
      encoded := encoded + if record.Some? then [record.value] else [];
      if wait {
        issued := issued[nextAck := sequence];
        nextAck := nextAck + 1;
      }
    }

    /** A full queue is a failure, and nothing is admitted after one. */
    method Enqueue(record: Option<string>, critical: bool, wait: bool) returns (o: Outcome, ack: Option<nat>)
      requires Ready() && !closed && (wait ==> critical)
      modifies this
      ensures Ready() && Forward(old(Now()), Now())
      ensures o.Done? <==> !old(failed) && |old(queue)| < CAPACITY
      ensures o.Done? ==> Now() == Admitted(old(Now()), record, critical, wait) && ack == if wait then Some(old(nextAck)) else None
      ensures o.Raised? ==> Now() == old(Now()).(failed := true)
    {
      hide Valid, Forward, Admitted;
      FailureKeeps(Now());
      if failed {
        return Raised(ExecutionError), None;
      }
      if |queue| >= CAPACITY {
        failed := true;
        return Raised(ExecutionError), None;
      }
      ack := Admit(record, critical, wait);
      o := Done;
    }

    /** The locked part of recording an event. With `waitDurable`, the caller then waits for the acknowledgement. */
    method Record(event: string, critical: bool, waitDurable: bool) returns (o: Outcome, ack: Option<nat>)
      requires Ready()
      modifies this
      ensures Ready() && Forward(old(Now()), Now())
      ensures o.Done? <==> !old(closed) && !old(failed) && |old(queue)| < CAPACITY
      ensures o.Done? ==> Now() == Admitted(old(Now()), Some(event), critical || waitDurable, waitDurable)
                          && ack == if waitDurable then Some(old(nextAck)) else None
      ensures o.Raised? ==> encoded == old(encoded) && (!old(closed) ==> failed)
    {
      if closed {
        ForwardSelf(Now());
        return Raised(ExecutionError), None;
      }
      o, ack := Enqueue(Some(event), critical || waitDurable, waitDurable);
    }

    lemma ForwardSelf(s: State)
      ensures Forward(s, s)
    {
    }

    /**
     The locked part of a flush. A logger that is already closed promises nothing: it answers at once, whatever the
     writer still has to do.
     */
    method Flush() returns (o: Outcome, ack: Option<nat>)
      requires Ready()
      modifies this
      ensures Ready() && Forward(old(Now()), Now())
      ensures old(closed) ==> Now() == old(Now()) && ack.None? && (o.Done? <==> !failed)
      ensures !old(closed) && o.Done? ==> Now() == Admitted(old(Now()), None, true, true) && ack == Some(old(nextAck))
    {
      if closed {
        ForwardSelf(Now());
        o := CheckHealth();
        return o, None;
      }
      o, ack := Enqueue(None, true, true);
    }

    /** The end of a wait: after the acknowledgement, or when time is up. A normal return means durable. */
    method WaitDurable(a: nat, timedOut: bool) returns (o: Outcome)
      requires Ready() && a in issued && (timedOut || a in acks)
      modifies this`failed
      ensures Ready() && Forward(old(Now()), Now())
      ensures o.Done? <==> !timedOut && !old(failed)
      ensures o.Done? ==> Durable(Now(), issued[a])
    {
      ForwardSelf(Now());
      if timedOut {
        Fail();
      }
      o := CheckHealth();
      if o.Done? {
        AcknowledgedIsDurable(Now(), a);
      }
    }

    /** Closing admits a last record, and nothing after it, even if that record could not be admitted. */
    method BeginClose(event: string) returns (o: Outcome)
      requires Ready()
      modifies this
      ensures Ready() && Forward(old(Now()), Now()) && closed
      ensures old(closed) ==> o.Done? && Now() == old(Now())
      ensures !old(closed) && o.Done? ==> encoded == old(encoded) + [event]
      ensures !old(closed) && o.Raised? ==> failed
    {
      hide Valid, Forward;
      o := Done;
      if closed {
        ForwardSelf(Now());
        return;
      }
      var ack;
      o, ack := Record(event, true, false);
      ClosingKeeps(old(Now()), Now());
      closed := true;
    }

    lemma ClosingKeeps(s: State, t: State)
      requires Valid(t) && Forward(s, t) && !s.closed
      ensures Valid(t.(closed := true)) && Forward(s, t.(closed := true))
    {
    }

    method RequestStop()
      requires Ready() && closed
      modifies this`stop
      ensures Ready() && Forward(old(Now()), Now()) && stop
    {
      ForwardSelf(Now());
      stop := true;
    }

    /**
     The end of closing, after the writer has gone or the wait for it was given up. A normal return means that every
     admitted record is in the file.
     */
    method EndClose() returns (o: Outcome)
      requires Ready() && stop
      modifies this`failed
      ensures Ready() && Forward(old(Now()), Now())
      ensures o.Done? <==> phase.Gone? && !old(failed)
      ensures o.Done? ==> FileText(Now()) == Lines(encoded, |encoded|)
    {
      ForwardSelf(Now());
      if !phase.Gone? {
        Fail();
      }
      o := CheckHealth();
      if o.Done? {
        GoneMeansAllOnDisk(Now());
      }
    }

    // ---- The writer thread ----

    /** Some of the buffered text leaves the buffers, or all of it if the call succeeds. */
    method Drain(succeeds: bool)
      requires onDisk <= |text|
      modifies this`onDisk
      ensures old(onDisk) <= onDisk <= |text| && (succeeds ==> onDisk == |text|)
    {
      var left: nat := *;
      if succeeds {
        onDisk := |text|;
      } else if onDisk <= left <= |text| {
        onDisk := left;
      }
    }

    method TakeRequest()
      requires Ready() && phase.Idle? && queue != []
      modifies this`queue, this`phase, this`taken
      ensures Ready() && Forward(old(Now()), Now()) && Now() == Took(old(Now()))
    {
      TakingKeeps(Now());
      taken := queue[0].upTo;
      queue, phase := queue[1..], Got(queue[0]);
    }

    /** After a failure, requests are only acknowledged. */
    method WriterChecksHealth()
      requires Ready() && phase.Got?
      modifies this`phase
      ensures Ready() && Forward(old(Now()), Now())
      ensures Now() == old(Now()).(phase := if failed then Settling(old(phase).item) else Healthy(old(phase).item))
    {
      ghost var s := Now();
      phase := if failed then Settling(phase.item) else Healthy(phase.item);
      ProgressKeeps(s, Now());
    }

    /** What a write call does to the stream: it accepts the line, or some part of it, and some text leaves the buffers. */
    method StreamWrites(line: string, succeeds: bool) returns (part: string, left: nat)
      requires onDisk <= |text|
      ensures part <= line && (succeeds ==> part == line) && onDisk <= left <= |text + part|
    {
      var accepted: int := *;
      part := if !succeeds && 0 <= accepted <= |line| then line[..accepted] else line;
      left := *;
      if !(onDisk <= left <= |text + part|) {
        left := onDisk;
      }
    }

    method AcceptLine(part: string, left: nat)
      requires phase.Healthy?
      modifies this`text, this`onDisk, this`phase, this`written, this`partial
      ensures Now() == Handed(old(Now()), part, true, left)
    {
      text, onDisk, written, partial, phase := text + part, left, taken, "", Wrote(phase.item);
    }

    method BreakLine(part: string, left: nat)
      requires phase.Healthy?
      modifies this`text, this`onDisk, this`failed, this`phase, this`partial
      ensures Now() == Handed(old(Now()), part, false, left)
    {
      text, onDisk, failed, partial, phase := text + part, left, true, part, Settling(phase.item);
    }

    /** Hands the line of a record to the stream; a failing call may leave any part of it behind. */
    method WriteRecord(succeeds: bool)
      requires Ready() && phase.Healthy? && phase.item.record.Some?
      modifies this`text, this`onDisk, this`failed, this`phase, this`written, this`partial
      ensures Ready() && Forward(old(Now()), Now())
      ensures succeeds ==> text == old(text) + (old(phase).item.record.value + "\n") && phase == Wrote(old(phase).item)
      ensures !succeeds ==> failed && phase == Settling(old(phase).item)
    {
      hide Valid, Forward;
      Bounds(Now());
      var part, left := StreamWrites(phase.item.record.value + "\n", succeeds);
      HandingKeeps(Now(), part, succeeds, left);
      if succeeds {
        AcceptLine(part, left);
      } else {
        BreakLine(part, left);
      }
    }

    /** A mere flush request writes nothing. */
    method SkipWrite()
      requires Ready() && phase.Healthy? && phase.item.record.None?
      modifies this`phase
      ensures Ready() && Forward(old(Now()), Now()) && phase == Wrote(old(phase).item)
    {
      ghost var s := Now();
      phase := Wrote(phase.item);
      ProgressKeeps(s, Now());
    }

    method FlushStream(succeeds: bool)
      requires Ready() && phase.Wrote?
      modifies this`onDisk, this`failed, this`phase
      ensures Ready() && Forward(old(Now()), Now())
      ensures phase == if succeeds then Flushed(old(phase).item) else Settling(old(phase).item)
    {
      hide Valid, Forward;
      ghost var s := Now();
      Bounds(s);
      Drain(succeeds);
      failed := failed || !succeeds;
      phase := if succeeds then Flushed(phase.item) else Settling(phase.item);
      DrainKeeps(s, Now());
    }

    /** Critical records are forced to the device before they are acknowledged. */
    method SyncIfCritical(succeeds: bool)
      requires Ready() && phase.Flushed?
      modifies this`synced, this`failed, this`phase
      ensures Ready() && Forward(old(Now()), Now()) && phase == Settling(old(phase).item)
    {
      hide Valid, Forward;
      ghost var s := Now();
      Bounds(s);
      if phase.item.critical {
        if succeeds {
          synced := onDisk;
        } else {
          failed := true;
        }
      }
      phase := Settling(phase.item);
      SyncKeeps(s, Now());
    }

    method Acknowledge()
      requires Ready() && phase.Settling?
      modifies this`acks, this`phase
      ensures Ready() && Forward(old(Now()), Now()) && Now() == Acknowledged(old(Now()))
    {
      AcknowledgingKeeps(Now());
      acks := if phase.item.ack.Some? then acks + {phase.item.ack.value} else acks;
      phase := Idle;
    }

    method LeaveLoop()
      requires Ready() && phase.Idle? && stop && queue == []
      modifies this`phase
      ensures Ready() && Forward(old(Now()), Now()) && phase.Leaving?
    {
      ghost var s := Now();
      phase := Leaving;
      ProgressKeeps(s, Now());
    }

    method CloseStream(succeeds: bool)
      requires Ready() && phase.Leaving?
      modifies this`onDisk, this`failed, this`phase
      ensures Ready() && Forward(old(Now()), Now()) && phase.Gone?
    {
      ghost var s := Now();
      Drain(succeeds);
      failed := failed || !succeeds;
      phase := Gone;
      ProgressKeeps(s, Now());
    }

    /** The next step of the writer, if it can make one. Whether its calls succeed is up to the file system. */
    method WriterStep(succeeds: bool)
      requires Ready()
      modifies this
      ensures Ready() && Forward(old(Now()), Now())
    {
      ForwardSelf(Now());
      match phase {
        case Idle =>
          if queue != [] {
            TakeRequest();
          } else if stop {
            LeaveLoop();
          }
        case Got(_) => WriterChecksHealth();
        case Healthy(item) =>
          if item.record.Some? {
            WriteRecord(succeeds);
          } else {
            SkipWrite();
          }
        case Wrote(_) => FlushStream(succeeds);
        case Flushed(_) => SyncIfCritical(succeeds);
        case Settling(_) => Acknowledge();
        case Leaving => CloseStream(succeeds);
        case Gone =>
      }
    }

    /** A caller's step that admits something, or stops the writer. */
    method Call(move: Move)
      requires Ready() && !move.Waiting? && !move.Joining? && !move.Writing?
      modifies this
      ensures Ready() && Forward(old(Now()), Now())
    {
      ForwardSelf(Now());
      match move {
        case Recording(event, critical, waitDurable) =>
          var o, ack := Record(event, critical, waitDurable);
        case Flushing =>
          var o, ack := Flush();
        case Closing(event) =>
          var o := BeginClose(event);
        case Stopping =>
          if closed {
            RequestStop();
          }
      }
    }

    /** A caller's step that ends a wait, and may return normally. */
    method Return(move: Move) returns (ghost promise: Option<Promise>)
      requires Ready() && (move.Waiting? || move.Joining?)
      modifies this
      ensures Ready() && Forward(old(Now()), Now())
      ensures promise.Some? ==> Holds(Now(), promise.value)
    {
      ForwardSelf(Now());
      promise := None;
      if move.Waiting? {
        if move.ack < nextAck && (move.ack in acks || move.timedOut) {
          var o := WaitDurable(move.ack, move.timedOut);
          promise := if o.Done? then Some(MadeDurable(issued[move.ack])) else None;
        }
      } else if stop {
        var o := EndClose();
        promise := if o.Done? then Some(AllInFile) else None;
      }
    }

    /** One step of some thread; a step that is not enabled does nothing. */
    method Perform(move: Move, ghost promises: seq<Promise>) returns (ghost promises1: seq<Promise>)
      requires Ready() && Kept(Now(), promises)
      modifies this
      ensures Ready() && Forward(old(Now()), Now()) && Kept(Now(), promises1) && promises <= promises1
    {
      promises1 := promises;
      if move.Waiting? || move.Joining? {
        ghost var promise := Return(move);
        promises1 := promises + if promise.Some? then [promise.value] else [];
      } else if move.Writing? {
        WriterStep(move.succeeds);
      } else {
        Call(move);
      }
      StillKept(old(Now()), Now(), promises);
    }

    /**
     Any interleaving of any threads: the invariant holds throughout, and every promise that a normal return has ever
     made still holds at the end.
     */
    method Interleave(moves: seq<Move>) returns (ghost promises: seq<Promise>)
      requires Ready()
      modifies this
      ensures Ready() && Kept(Now(), promises)
      ensures FileText(Now()) <= Lines(encoded, |encoded|)
    {
      promises := [];
      for i := 0 to |moves|
        invariant Ready() && Kept(Now(), promises)
      {
        promises := Perform(moves[i], promises);
      }
      TextIsPrefixOfRecords(Now());
    }
  }

  // ---- The reader ----

  /** What a line of the file says, if it is a complete record of the known schema. */
  datatype Entry = Entry(session: string, sequence: int)

  type Parser = string -> Option<Entry>

  /** One session, numbered from zero without a gap. */
  ghost predicate Accepted(lines: seq<string>, parse: Parser) {
    forall i | 0 <= i < |lines| :: AcceptedAt(lines, parse, i)
  }

  predicate AcceptedAt(lines: seq<string>, parse: Parser, i: int)
    requires 0 <= i < |lines|
  {
    && parse(lines[i]).Some? && parse(lines[i]).value.session != ""
    && parse(lines[i]).value.sequence == i
    && parse(lines[0]).Some? && parse(lines[i]).value.session == parse(lines[0]).value.session
  }

  /** The strict reader. */
  method IterRecords(lines: seq<string>, parse: Parser) returns (r: Result<seq<Entry>>)
    ensures r.Ok? <==> Accepted(lines, parse)
    ensures r.Ok? ==> |r.value| == |lines| && forall i | 0 <= i < |lines| :: parse(lines[i]) == Some(r.value[i])
  {
    var expectedSession: Option<string>, expectedSequence := None, 0;
    var records: seq<Entry> := [];
    for i := 0 to |lines|
      invariant expectedSequence == i == |records|
      invariant forall j | 0 <= j < i :: AcceptedAt(lines, parse, j) && parse(lines[j]) == Some(records[j])
      invariant expectedSession == if i == 0 then None else Some(records[0].session)
    {
      var entry := parse(lines[i]);
      if entry.None? || entry.value.session == "" {
        assert !AcceptedAt(lines, parse, i);
        return Err(ConfigurationError);
      }
      if expectedSession.None? {
        expectedSession := Some(entry.value.session);
      }
      if entry.value.session != expectedSession.value || entry.value.sequence != expectedSequence {
        assert !AcceptedAt(lines, parse, i);
        return Err(ConfigurationError);
      }
      expectedSequence := expectedSequence + 1;
      records := records + [entry.value];
    }
    return Ok(records);
  }

  /** The records of one session as the logger encodes them: only a complete record parses. */
  ghost predicate Encodes(encoded: seq<string>, session: string, parse: Parser) {
    && session != ""
    && (forall n | 0 <= n < |encoded| :: '\n' !in encoded[n] && encoded[n] != "" && parse(encoded[n]) == Some(Entry(session, n)))
    && (forall n, part | 0 <= n < |encoded| && part < encoded[n] :: parse(part).None?)
  }

  /** A text split at its line ends; what follows the last one is a line if there is anything. */
  function SplitLines(text: string): seq<string>
    decreases |text|
  {
    if text == "" then []
    else
      var line := FirstLine(text);
      [line] + SplitLines(if |line| < |text| then text[|line| + 1..] else "")
  }

  function FirstLine(text: string): (line: string)
    ensures |line| <= |text| && line == text[..|line|] && '\n' !in line
    ensures |line| < |text| ==> text[|line|] == '\n'
  {
    if text == "" || text[0] == '\n' then "" else [text[0]] + FirstLine(text[1..])
  }

  lemma {:induction false} FirstLineOf(line: string, rest: string)
    requires '\n' !in line && (rest == "" || rest[0] == '\n')
    ensures FirstLine(line + rest) == line
  {
    if line != "" {
      assert (line + rest)[1..] == line[1..] + rest;
      FirstLineOf(line[1..], rest);
    } else {
      assert line + rest == rest;
    }
  }

  /** Records from position m on, a line each. */
  function LinesFrom(encoded: seq<string>, m: nat, n: nat): string
    requires m <= n <= |encoded|
    decreases n - m
  {
    if m == n then "" else (encoded[m] + "\n") + LinesFrom(encoded, m + 1, n)
  }

  lemma {:induction false} LinesJoin(encoded: seq<string>, m: nat, n: nat)
    requires m <= n <= |encoded|
    ensures Lines(encoded, m) + LinesFrom(encoded, m, n) == Lines(encoded, n)
    decreases n - m
  {
    if m < n {
      LinesJoin(encoded, m + 1, n);
      assert Lines(encoded, m) + ((encoded[m] + "\n") + LinesFrom(encoded, m + 1, n)) ==
             (Lines(encoded, m) + (encoded[m] + "\n")) + LinesFrom(encoded, m + 1, n);
    }
  }

  lemma SplitStep(line: string, rest: string)
    requires '\n' !in line
    ensures SplitLines(line + ("\n" + rest)) == [line] + SplitLines(rest)
  {
    var text := line + ("\n" + rest);
    FirstLineOf(line, "\n" + rest);
    assert text[|line| + 1..] == rest;
  }

  lemma SplitLast(tail: string)
    requires '\n' !in tail
    ensures SplitLines(tail) == if tail == "" then [] else [tail]
  {
    FirstLineOf(tail, "");
    assert tail + "" == tail;
  }

  /** A file of whole lines and a tail without a line end splits into these lines, and the tail if there is one. */
  lemma {:induction false} SplitsInto(encoded: seq<string>, m: nat, n: nat, tail: string)
    requires m <= n <= |encoded| && '\n' !in tail && forall i | 0 <= i < |encoded| :: '\n' !in encoded[i]
    ensures SplitLines(LinesFrom(encoded, m, n) + tail) == encoded[m..n] + if tail == "" then [] else [tail]
    decreases n - m
  {
    hide SplitLines;
    if m == n {
      assert LinesFrom(encoded, m, n) + tail == tail;
      SplitLast(tail);
    } else {
      var rest := LinesFrom(encoded, m + 1, n) + tail;
      assert LinesFrom(encoded, m, n) + tail == encoded[m] + ("\n" + rest);
      SplitStep(encoded[m], rest);
      SplitsInto(encoded, m + 1, n, tail);
      assert encoded[m..n] == [encoded[m]] + encoded[m + 1..n];
    }
  }

  /** Any beginning of the records is some whole lines and a tail of the next one. */
  lemma {:induction false} BeginningOfRecords(encoded: seq<string>, n: nat, file: string) returns (k: nat, tail: string)
    requires n <= |encoded| && file <= Lines(encoded, n) && forall i | 0 <= i < |encoded| :: '\n' !in encoded[i]
    ensures k <= n && file == Lines(encoded, k) + tail && '\n' !in tail
    ensures tail != "" ==> k < n && tail <= encoded[k]
    decreases n
  {
    if |file| == |Lines(encoded, n)| {
      assert file == Lines(encoded, n) + "";
      return n, "";
    }
    var before := Lines(encoded, n - 1);
    var line := encoded[n - 1] + "\n";
    if |file| < |before| {
      assert file <= before;
      k, tail := BeginningOfRecords(encoded, n - 1, file);
    } else {
      k, tail := n - 1, file[|before|..];
      assert file == before + tail && tail <= line && |tail| < |line|;
      assert tail <= encoded[n - 1];
    }
  }

  /**
   The complete lines of the file are always the first admitted records, one after the other from zero, and the strict
   reader accepts the file exactly when its last line is no fragment of a record.
   */
  lemma ReaderAcceptsLog(s: State, session: string, parse: Parser) returns (k: nat, tail: string)
    requires Valid(s) && Encodes(s.encoded, session, parse)
    ensures k <= |s.encoded| && FileText(s) == Lines(s.encoded, k) + tail && '\n' !in tail
    ensures tail != "" ==> k < |s.encoded| && tail <= s.encoded[k]
    ensures SplitLines(FileText(s)) == s.encoded[..k] + if tail == "" then [] else [tail]
    ensures Accepted(SplitLines(FileText(s)), parse) <==> (tail == "" || tail == s.encoded[k])
  {
    TextIsPrefixOfRecords(s);
    assert FileText(s) <= s.text;
    k, tail := BeginningOfRecords(s.encoded, |s.encoded|, FileText(s));
    LinesJoin(s.encoded, 0, k);
    assert Lines(s.encoded, 0) + LinesFrom(s.encoded, 0, k) == LinesFrom(s.encoded, 0, k);
    SplitsInto(s.encoded, 0, k, tail);
    assert s.encoded[0..k] == s.encoded[..k];
    RecordsAccepted(s.encoded, session, parse, k, tail);
  }

  lemma RecordsAccepted(encoded: seq<string>, session: string, parse: Parser, k: nat, tail: string)
    requires Encodes(encoded, session, parse) && k <= |encoded| && (tail != "" ==> k < |encoded| && tail <= encoded[k])
    ensures var lines := encoded[..k] + if tail == "" then [] else [tail];
            Accepted(lines, parse) <==> (tail == "" || tail == encoded[k])
  {
    var lines := encoded[..k] + if tail == "" then [] else [tail];
    forall i | 0 <= i < k ensures AcceptedAt(lines, parse, i) {
      assert lines[i] == encoded[i] && lines[0] == encoded[0];
    }
    if tail != "" {
      assert lines[k] == tail;
      assert k > 0 ==> lines[0] == encoded[0];
      if tail == encoded[k] {
        assert AcceptedAt(lines, parse, k);
      } else {
        assert tail < encoded[k] && !AcceptedAt(lines, parse, k);
      }
    }
  }
}
