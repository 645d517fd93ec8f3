/**
 Deadlines of device operations. A session handed to an operation is wrapped in one view per enclosing deadline; each
 view caps the shared I/O timeout for the duration of one call. Scopes nest, and must leave no trace behind.
 */
module Deadlines {
  import opened Outcomes

  /** A session as an adapter holds it: the raw one, or a view of another session under a deadline. */
  datatype Session = Raw(id: nat) | Deadline(inner: Session, deadline: real)

  function RawOf(s: Session): nat {
    match s
    case Raw(id) => id
    case Deadline(inner, _) => RawOf(inner)
  }

  /** The deadlines of the views around the raw session, outermost first. */
  function Layers(s: Session): seq<real> {
    match s
    case Raw(_) => []
    case Deadline(inner, d) => [d] + Layers(inner)
  }

  function Ceil(x: real): int {
    -((-x).Floor)
  }

  /** What a deadline leaves for one call: its remaining time in whole milliseconds, but never nothing. */
  function CapMs(deadline: real, now: real): nat {
    Max(1, Ceil((deadline - now) * 1000.0))
  }

  /** The I/O timeout under all these deadlines, each read at its own moment. */
  /** In seconds, the cap is what remains until the deadline, rounded up to the next millisecond. */
  lemma CapIsRemaining(deadline: real, now: real)
    ensures now < deadline ==> CapMs(deadline, now) as real / 1000.0 >= deadline - now > (CapMs(deadline, now) - 1) as real / 1000.0
    ensures now >= deadline ==> CapMs(deadline, now) == 1
  {
  }

  function CappedMs(layers: seq<real>, readings: seq<real>, timeout: nat): nat
    requires |layers| == |readings|
    decreases |layers|
  {
    if layers == [] then timeout else CappedMs(layers[1..], readings[1..], Min(timeout, CapMs(layers[0], readings[0])))
  }

  /** It is the smallest of the original timeout and every layer's own cap. */
  lemma {:induction false} CappedIsMinimum(layers: seq<real>, readings: seq<real>, timeout: nat)
    requires |layers| == |readings|
    ensures var ms := CappedMs(layers, readings, timeout);
            && ms <= timeout && (forall i | 0 <= i < |layers| :: ms <= CapMs(layers[i], readings[i]))
            && (ms == timeout || exists i :: 0 <= i < |layers| && ms == CapMs(layers[i], readings[i]))
    decreases |layers|
  {
    if layers != [] {
      var capped := Min(timeout, CapMs(layers[0], readings[0]));
      var ms := CappedMs(layers, readings, timeout);
      CappedIsMinimum(layers[1..], readings[1..], capped);
      forall i | 1 <= i < |layers| ensures ms <= CapMs(layers[i], readings[i]) {
        assert layers[1..][i - 1] == layers[i] && readings[1..][i - 1] == readings[i];
      }
      if ms != capped {
        var i :| 0 <= i < |layers[1..]| && ms == CapMs(layers[1..][i], readings[1..][i]);
        assert layers[1..][i] == layers[i + 1] && readings[1..][i] == readings[i + 1];
      }
    }
  }

  /** A command that reached the instrument: the layers it came through, when each was read, and the timeout it ran under. */
  datatype Sent = Sent(raw: nat, layers: seq<real>, readings: seq<real>, original: nat, timeoutMs: nat)

  predicate EndsBy(layers: seq<real>, latest: real) {
    exists d | d in layers :: d <= latest
  }

  /** Nothing is sent past a deadline, and the timeout is exactly the tightest cap. */
  predicate InTime(sent: Sent) {
    && |sent.readings| == |sent.layers|
    && (forall i | 0 <= i < |sent.layers| :: sent.readings[i] < sent.layers[i])
    && sent.timeoutMs == CappedMs(sent.layers, sent.readings, sent.original)
  }

  /** What a client does with an adapter. */
  datatype Program =
    | Call
    | Scope(durationS: real, body: Program)        // operation_timeout
    | IoTimeout(timeoutS: real, body: Program)     // io_timeout
    | Then(first: Program, second: Program)
    | Fail
    | Reconnect(timeoutMs: nat)
    | Disconnect

  predicate Reconnects(p: Program) {
    match p
    case Scope(_, body) => Reconnects(body)
    case IoTimeout(_, body) => Reconnects(body)
    case Then(first, second) => Reconnects(first) || Reconnects(second)
    case Reconnect(_) => true
    case Disconnect => true
    case _ => false
  }

  /** Sessions are replaced in no nested scope. */
  predicate ReconnectsOnlyHere(p: Program) {
    match p
    case Scope(_, body) => !Reconnects(body)
    case IoTimeout(_, body) => ReconnectsOnlyHere(body)
    case Then(first, second) => ReconnectsOnlyHere(first) && ReconnectsOnlyHere(second)
    case _ => true
  }

  /** A call through a session that is not protected by the enclosing deadline may outlast it. */
  predicate Protected(session: Option<Session>, deadline: Option<real>) {
    session.Some? && deadline.Some? ==> deadline.value in Layers(session.value)
  }

  class DeviceAdapter {
    var session: Option<Session>
    var operationDeadline: Option<real>
    var timeouts: map<nat, nat>
    var sessionsMade: nat
    var now: real
    ghost var sent: seq<Sent>

    predicate Valid()
      reads this
    {
      && (forall id | id in timeouts :: id < sessionsMade)
      && (session.Some? ==> RawOf(session.value) in timeouts)
    }

    constructor ()
      ensures Valid() && session.None? && operationDeadline.None? && sent == []
    {
      session, operationDeadline, timeouts, sessionsMade, now, sent := None, None, map[], 0, 0.0, [];
    }

    method Tick()
      modifies this`now
      ensures old(now) <= now
    {
      var elapsed: real := *;
      if elapsed > 0.0 {
        now := now + elapsed;
      }
    }

    /** The instrument receives a command: it may take any time, answer or raise. */
    method Send(id: nat, ghost record: Sent) returns (o: Outcome)
      modifies this`now, this`sent
      ensures old(now) <= now && sent == old(sent) + [record]
    {
      sent := sent + [record];
      Tick();
      var error: Error := *;
      var fine: bool := *;
      o := if fine then Done else Raised(error);
    }

    /**
     One call through all the views of a session. However it ends, the I/O timeout is what it was; if the command was
     sent, every view was read before its deadline, and the timeout was the tightest of their caps.
     */
    method CallThrough(s: Session, ghost layers: seq<real>, ghost readings: seq<real>, ghost original: nat)
      returns (o: Outcome, ghost taken: seq<real>)
      requires RawOf(s) in timeouts && |layers| == |readings|
      requires forall i | 0 <= i < |layers| :: readings[i] < layers[i]
      requires timeouts[RawOf(s)] == CappedMs(layers, readings, original)
      modifies this`now, this`timeouts, this`sent
      ensures old(now) <= now && timeouts == old(timeouts)
      ensures sent == old(sent) || (|taken| == |Layers(s)| && sent == old(sent) + [RecordOf(s, layers, readings, taken, original)])
      ensures sent != old(sent) ==> InTime(sent[|sent| - 1])
      ensures o.Done? ==> sent != old(sent)
      decreases s
    {
      taken := [];
      match s {
        case Raw(id) =>
          RawRecord(s, layers, readings, original);
          o := Send(id, RecordOf(s, layers, readings, [], original));
        case Deadline(inner, d) =>
          Tick();
          var remaining := d - now;
          if remaining <= 0.0 {
            return Raised(TimeoutError), [];
          }
          var previous := timeouts[RawOf(inner)];
          timeouts := timeouts[RawOf(inner) := Min(previous, CapMs(d, now))];
          CappedOneMore(layers, readings, original, d, now);
          ghost var reading := now;
          o, taken := CallThrough(inner, layers + [d], readings + [now], original);
          timeouts := timeouts[RawOf(inner) := previous];
          if sent != old(sent) {
            InnerRecord(s, layers, readings, reading, taken, original);
            taken := [reading] + taken;
          }
      }
    }

    ghost function RecordOf(s: Session, layers: seq<real>, readings: seq<real>, taken: seq<real>, original: nat): Sent
      requires |layers| == |readings| && |taken| == |Layers(s)|
    {
      Sent(RawOf(s), layers + Layers(s), readings + taken, original, CappedMs(layers + Layers(s), readings + taken, original))
    }

    lemma RawRecord(s: Session, layers: seq<real>, readings: seq<real>, original: nat)
      requires s.Raw? && |layers| == |readings| && forall i | 0 <= i < |layers| :: readings[i] < layers[i]
      ensures RecordOf(s, layers, readings, [], original).timeoutMs == CappedMs(layers, readings, original)
      ensures InTime(RecordOf(s, layers, readings, [], original))
    {
      assert layers + [] == layers && readings + [] == readings;
    }

    lemma InnerRecord(s: Session, layers: seq<real>, readings: seq<real>, reading: real, taken: seq<real>, original: nat)
      requires s.Deadline? && |layers| == |readings| && |taken| == |Layers(s.inner)|
      ensures RecordOf(s.inner, layers + [s.deadline], readings + [reading], taken, original) ==
              RecordOf(s, layers, readings, [reading] + taken, original)
    {
      assert layers + [s.deadline] + Layers(s.inner) == layers + Layers(s);
      assert readings + [reading] + taken == readings + ([reading] + taken);
    }

    lemma CappedOneMore(layers: seq<real>, readings: seq<real>, timeout: nat, d: real, reading: real)
      requires |layers| == |readings|
      ensures CappedMs(layers + [d], readings + [reading], timeout) == Min(CappedMs(layers, readings, timeout), CapMs(d, reading))
      decreases |layers|
    {
      if layers == [] {
        assert layers + [d] == [d] && readings + [reading] == [reading];
      } else {
        CappedOneMore(layers[1..], readings[1..], Min(timeout, CapMs(layers[0], readings[0])), d, reading);
        assert (layers + [d])[1..] == layers[1..] + [d];
        assert (readings + [reading])[1..] == readings[1..] + [reading];
      }
    }

    /** A session made since: bare, or under the deadline in force. */
    predicate Renewed(before: nat)
      reads this`session, this`operationDeadline
    {
      session.Some? ==>
        && RawOf(session.value) >= before
        && (session.value.Raw? ||
            (operationDeadline.Some? && session.value == Deadline(Raw(RawOf(session.value)), operationDeadline.value)))
    }

    /** Everything sent since respected every layer it came through. */
    ghost predicate SentInTime(before: seq<Sent>)
      reads this`sent
    {
      |before| <= |sent| && sent[..|before|] == before && forall i | |before| <= i < |sent| :: InTime(sent[i])
    }

    /** Everything sent since came through all these views. */
    ghost predicate SentThrough(before: seq<Sent>, layers: seq<real>)
      reads this`sent
    {
      forall i, d | |before| <= i < |sent| && d in layers :: d in sent[i].layers
    }

    /** Everything sent since came through a view whose deadline is no later. */
    ghost predicate SentBy(before: seq<Sent>, latest: real)
      reads this`sent
    {
      forall i | |before| <= i < |sent| :: EndsBy(sent[i].layers, latest)
    }

    method RunCall() returns (o: Outcome)
      requires Valid()
      modifies this`now, this`timeouts, this`sent
      ensures old(now) <= now && timeouts == old(timeouts) && SentInTime(old(sent))
      ensures session.Some? ==> SentThrough(old(sent), Layers(session.value))
      ensures session.None? ==> sent == old(sent)
    {
      if session.None? {
        return Raised(DeviceError);
      }
      var s := session.value;
      ghost var taken;
      o, taken := CallThrough(s, [], [], timeouts[RawOf(s)]);
      assert [] + Layers(s) == Layers(s);
    }

    /** Opens a new session within the enclosing deadline. */
    method RunReconnect(timeoutMs: nat) returns (o: Outcome)
      requires Valid()
      modifies this`now, this`session, this`timeouts, this`sessionsMade
      ensures Valid() && old(now) <= now && old(sessionsMade) <= sessionsMade
      ensures forall id | id in old(timeouts) :: id in timeouts && timeouts[id] == old(timeouts)[id]
      ensures session == old(session) || Renewed(old(sessionsMade))
      ensures o.Done? ==> session.Some? && Protected(session, operationDeadline)
      ensures o.Raised? ==> session == old(session)
    {
      var timeout := timeoutMs;
      if operationDeadline.Some? {
        Tick();
        var remaining := operationDeadline.value - now;
        if remaining <= 0.0 {
          return Raised(TimeoutError);
        }
        timeout := Min(timeoutMs, CapMs(operationDeadline.value, now));
      }
      Tick();
      var opens: bool := *;
      if !opens {
        return Raised(DeviceError);
      }
      var id := sessionsMade;
      sessionsMade, timeouts := sessionsMade + 1, timeouts[id := timeout];
      if operationDeadline.None? {
        session := Some(Raw(id));
      } else {
        if now >= operationDeadline.value {
          return Raised(TimeoutError);
        }
        session := Some(Deadline(Raw(id), operationDeadline.value));
        assert RawOf(Raw(id)) == id;
      }
      o := Done;
    }

    /**
     A deadline for a group of calls. On its way out it takes off its own view. A session opened inside loses that
     view, and has no other: within an enclosing deadline it is then unprotected.
     */
    method RunScope(durationS: real, body: Program) returns (o: Outcome)
      requires Valid()
      modifies this
      ensures Valid() && old(now) <= now && old(sessionsMade) <= sessionsMade && operationDeadline == old(operationDeadline)
      ensures SentInTime(old(sent))
      ensures session == old(session) || (session.Some? ==> session.value.Raw? && RawOf(session.value) >= old(sessionsMade))
      ensures session == old(session) && session.Some? ==> timeouts[RawOf(session.value)] == old(timeouts)[RawOf(session.value)]
      ensures !Reconnects(body) ==> session == old(session) && timeouts == old(timeouts) && sessionsMade == old(sessionsMade)
      ensures !Reconnects(body) && session.Some? ==> SentThrough(old(sent), Layers(session.value))
      ensures !Reconnects(body) && session.None? ==> sent == old(sent)
      ensures !Reconnects(body) && session.Some? && 0.0 < durationS ==> SentBy(old(sent), old(now) + durationS)
      ensures operationDeadline.Some? && session.Some? && old(session).Some? && Protected(old(session), operationDeadline) ==>
        (Protected(session, operationDeadline) <==> RawOf(session.value) == RawOf(old(session).value))
      decreases body, 1
    {
      if durationS <= 0.0 {
        return Raised(ConfigurationError);
      }
      var previous := operationDeadline;
      var own := now + durationS;
      var deadline := if previous.Some? && previous.value < own then previous.value else own;
      operationDeadline := Some(deadline);
      if session.Some? {
        session := Some(Deadline(session.value, deadline));
      }
      o := Execute(body);
      if !Reconnects(body) && session.Some? {
        WrappedLayers(old(sent), session.value, old(now) + durationS);
      }
      if session.Some? && session.value.Deadline? && session.value.deadline == deadline {
        session := Some(session.value.inner);
      }
      operationDeadline := previous;
    }

    /** What came through a view came through the session inside it. */
    lemma WrappedLayers(before: seq<Sent>, s: Session, latest: real)
      requires s.Deadline? && SentThrough(before, Layers(s)) && s.deadline <= latest
      ensures SentThrough(before, Layers(s.inner)) && SentBy(before, latest)
    {
      forall i | |before| <= i < |sent| ensures EndsBy(sent[i].layers, latest) {
        assert s.deadline in Layers(s);
        assert s.deadline in sent[i].layers;
      }
      forall i, d | |before| <= i < |sent| && d in Layers(s.inner) ensures d in sent[i].layers {
        assert d in Layers(s);
      }
    }

    /** A tighter I/O timeout for a while; restored unless the session was replaced meanwhile. */
    method RunIoTimeout(timeoutS: real, body: Program) returns (o: Outcome)
      requires Valid()
      modifies this
      ensures Valid() && old(now) <= now && old(sessionsMade) <= sessionsMade && operationDeadline == old(operationDeadline)
      ensures SentInTime(old(sent))
      ensures session == old(session) || Renewed(old(sessionsMade))
      ensures session == old(session) && session.Some? ==> timeouts[RawOf(session.value)] == old(timeouts)[RawOf(session.value)]
      ensures !Reconnects(body) ==> session == old(session) && timeouts == old(timeouts) && sessionsMade == old(sessionsMade)
      ensures !Reconnects(body) && session.Some? ==> SentThrough(old(sent), Layers(session.value))
      ensures !Reconnects(body) && session.None? ==> sent == old(sent)
      ensures ReconnectsOnlyHere(body) && Protected(old(session), operationDeadline) ==> Protected(session, operationDeadline)
      decreases body, 1
    {
      if timeoutS <= 0.0 {
        return Raised(ConfigurationError);
      }
      if session.None? {
        return Raised(DeviceError);
      }
      var own := session;
      var raw := RawOf(session.value);
      var previous := timeouts[raw];
      timeouts := timeouts[raw := Min(previous, Max(1, Ceil(timeoutS * 1000.0)))];
      o := Execute(body);
      if session == own {
        timeouts := timeouts[raw := previous];
      }
    }

    /**
     Any client program. Whatever it does and however it ends, the operation deadline is what it was, and everything it
     sent respected every deadline it came through. Unless it reconnects or disconnects, the session and all I/O
     timeouts are also what they were, and everything it sent came through the deadline in force.
     */
    method Execute(p: Program) returns (o: Outcome)
      requires Valid()
      modifies this
      ensures Valid() && old(now) <= now && old(sessionsMade) <= sessionsMade && operationDeadline == old(operationDeadline)
      ensures SentInTime(old(sent))
      ensures session == old(session) || Renewed(old(sessionsMade))
      ensures session == old(session) && session.Some? ==> timeouts[RawOf(session.value)] == old(timeouts)[RawOf(session.value)]
      ensures !Reconnects(p) ==> session == old(session) && timeouts == old(timeouts) && sessionsMade == old(sessionsMade)
      ensures !Reconnects(p) && session.Some? ==> SentThrough(old(sent), Layers(session.value))
      ensures !Reconnects(p) && session.None? ==> sent == old(sent)
      ensures ReconnectsOnlyHere(p) && Protected(old(session), operationDeadline) ==> Protected(session, operationDeadline)
      decreases p, 0
    {
      o := Done;
      match p {
        case Call => o := RunCall();
        case Scope(duration, body) => o := RunScope(duration, body);
        case IoTimeout(timeout, body) => o := RunIoTimeout(timeout, body);
        case Fail => o := Raised(ExecutionError);
        case Reconnect(timeoutMs) => o := RunReconnect(timeoutMs);
        case Disconnect => session := None;
        case Then(first, second) =>
          o := Execute(first);
          if o.Done? {
            o := Execute(second);
          }
      }
    }
  }
}
