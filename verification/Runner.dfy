/**
 The runner: it executes a compiled plan against instruments that may fail, under Stop requests and deadlines that
 may strike at any moment, stores checkpoints, records safe resume boundaries, and always ends in a shutdown.
 Instruments, storage, operator and clock are oracles: every call to them may take any time, answer or raise.
 */
module Runner {
  import opened Outcomes
  import opened Plan
  import opened Policy
  import opened Boundary
  import opened RunLedger

  datatype ApplicationState = Safe | Running | Paused | Stopping | Holding | Undetermined | Fault

  datatype RunResult = RunResult(state: ApplicationState, completed: nat, stored: nat, error: Option<Error>)

  class RecipeRunner {
    const policy: ExecutionPolicy
    const dryRun: bool
    const manualStep: bool
    const mokeAvailable: bool

    // The world outside: the clock, the operator, the watchdog, and the physical outputs of the instruments.
    var now: real
    var stopRequested: bool
    var watchdogTimedOut: bool
    var energized: set<Endpoint>

    var state: ApplicationState
    var requiredDevices: set<Device>
    var resumeOutputScope: set<Endpoint>
    var safeShutdownActions: seq<ShutdownStep>
    var shutdownDeadline: Option<real>
    var anritsuOwnsOutput: bool
    var mokeOwnsOutput: bool
    var mokePlan: Option<MokePlan>
    var mokeOwnedChannels: set<int>
    var referenceReady: bool
    var outputActive: set<Endpoint>
    var outputStatus: map<Endpoint, Status>
    var compliance: set<Smu>
    var lastBoundaryPoints: nat

    // Records of the run, for its specification only.
    ghost var archive: seq<Durable>
    ghost var dispatches: seq<Dispatch>
    ghost var times: seq<TimeEntry>
    ghost var rawSweeps: nat
    ghost var loopStarts: seq<nat>
    ghost var cleanupStarts: seq<nat>
    ghost var shutdowns: seq<Shutdown>
    ghost var mokeStops: seq<MokeStop>
    ghost var mokeDriven: set<int>
    ghost var shutdownBooks: MokeBooks
    ghost var tried: seq<Turn>
    ghost var flushFailures: nat
    ghost var offers: seq<Offer>
    ghost var spent: real

    constructor (policy: ExecutionPolicy, dryRun: bool, manualStep: bool, mokeAvailable: bool)
      requires policy.Accepted()
      ensures this.policy == policy && this.dryRun == dryRun && this.manualStep == manualStep
      ensures this.mokeAvailable == mokeAvailable && !mokeOwnsOutput && !stopRequested && state == Safe
    {
      this.policy, this.dryRun, this.manualStep, this.mokeAvailable := policy, dryRun, manualStep, mokeAvailable;
      now, stopRequested, watchdogTimedOut, energized := 0.0, false, false, {};
      state, requiredDevices, resumeOutputScope, safeShutdownActions := Safe, {}, {}, [];
      shutdownDeadline, anritsuOwnsOutput, mokeOwnsOutput, mokePlan := None, false, false, None;
      mokeOwnedChannels, referenceReady, outputActive, outputStatus := {}, false, {}, map[];
      compliance, lastBoundaryPoints, mokeStops, mokeDriven := {}, 0, [], {};
      shutdownBooks := MokeBooks([], [], {}, {});
      archive, dispatches, times, rawSweeps := [], [], [], 0;
      loopStarts, cleanupStarts, shutdowns, tried, flushFailures, offers, spent := [], [], [], [], 0, [], 0.0;
    }

    // ---- The world outside ----

    /** Time passes, the operator may request Stop, the watchdog may find the running action overdue. */
    method Environment()
      modifies this`now, this`stopRequested, this`watchdogTimedOut
      ensures old(now) <= now && (old(stopRequested) ==> stopRequested)
    {
      var elapsed: real := *;
      if elapsed > 0.0 {
        now := now + elapsed;
      }
      if * {
        stopRequested := true;
      }
      if * {
        FlagWatchdogTimeout();
      }
    }

    method FlagWatchdogTimeout()
      modifies this`stopRequested, this`watchdogTimedOut
      ensures watchdogTimedOut && (old(stopRequested) ==> stopRequested)
    {
      if !watchdogTimedOut {
        watchdogTimedOut, stopRequested := true, true;
      }
    }

    /** A call that answers with nothing the model keeps, or raises. */
    method Query() returns (o: Outcome)
      modifies this`now, this`stopRequested, this`watchdogTimedOut
      ensures old(now) <= now && (old(stopRequested) ==> stopRequested)
    {
      Environment();
      var error: Error := *;
      var fine: bool := *;
      o := if fine then Done else Raised(error);
    }

    /** Drives one output. Unless asked to energize it, the instrument can only leave it as it is or turn it off. */
    method Drive(e: Endpoint, energize: bool) returns (o: Outcome, enabled: bool)
      modifies this`now, this`stopRequested, this`watchdogTimedOut, this`energized
      ensures old(now) <= now && (old(stopRequested) ==> stopRequested)
      ensures forall x | x != e :: x in energized <==> x in old(energized)
      ensures !energize ==> energized <= old(energized)
      ensures o.Done? ==> enabled == (e in energized)
    {
      o := Query();
      var on: bool := *;
      energized := if on && (energize || e in energized) then energized + {e} else energized - {e};
      enabled := e in energized;
    }

    /** Configures or ramps down one output; an instrument that reports success has turned it off. */
    method ForceOff(e: Endpoint) returns (o: Outcome)
      modifies this`now, this`stopRequested, this`watchdogTimedOut, this`energized
      ensures old(now) <= now && (old(stopRequested) ==> stopRequested)
      ensures energized <= old(energized) && forall x | x != e && x in old(energized) :: x in energized
      ensures o.Done? ==> e !in energized
    {
      var stillOn: bool;
      o, stillOn := Drive(e, false);
      if o.Done? {
        energized := energized - {e};
      }
    }

    method ReadBack(e: Endpoint) returns (o: Outcome, enabled: bool)
      modifies this`now, this`stopRequested, this`watchdogTimedOut
      ensures old(now) <= now && (old(stopRequested) ==> stopRequested)
      ensures o.Done? ==> enabled == (e in energized)
    {
      o := Query();
      enabled := e in energized;
    }

    /** The emergency command of one device. Confirmed, every output of the device is off. */
    method EmergencyOff(d: Device) returns (o: Outcome)
      modifies this`now, this`stopRequested, this`watchdogTimedOut, this`energized
      ensures old(now) <= now && (old(stopRequested) ==> stopRequested)
      ensures energized <= old(energized) && forall e | e in old(energized) && e.Owner() != d :: e in energized
      ensures o.Done? ==> forall e | e in energized :: e.Owner() != d
    {
      o := Query();
      var off: set<Endpoint> := *;
      energized := set e | e in energized && !(e.Owner() == d && (o.Done? || e in off));
      var confirmed: bool := *;
      if o.Done? && !confirmed {
        o := Raised(ExecutionError);
      }
    }

    // ---- The log ----

    /** Writes one event and tells the listener; either may raise, the second after the event is stored. */
    method Emit(e: LogEvent) returns (o: Outcome)
      modifies this`now, this`stopRequested, this`watchdogTimedOut, this`archive
      ensures old(now) <= now && (old(stopRequested) ==> stopRequested)
      ensures archive == old(archive) || archive == old(archive) + [EventStored(e)]
      ensures o.Done? ==> archive == old(archive) + [EventStored(e)]
      ensures e.OtherEvent? ==> QuietlyExtends(old(archive), archive)
      ensures o.Raised? ==> o.error.ExecutionError?
    {
      o := Query();
      if o.Raised? {
        o := Raised(ExecutionError);
      }
      var written: bool := *;
      if o.Done? || written {
        archive := archive + [EventStored(e)];
      }
    }

    /** An event whose failure nobody cares about any more. */
    method EmitAfterFault(name: string)
      modifies this`now, this`stopRequested, this`watchdogTimedOut, this`archive
      ensures old(now) <= now && (old(stopRequested) ==> stopRequested)
      ensures QuietlyExtends(old(archive), archive)
    {
      var ignored := Emit(OtherEvent(name));
    }

    // ---- Stop and waiting ----

    method RaiseIfStopRequested() returns (o: Outcome)
      ensures o == if stopRequested then Raised(ExecutionError) else Done
    {
      o := if stopRequested then Raised(ExecutionError) else Done;
    }

    /** Sleeps in short steps, so that Stop interrupts it. */
    method InterruptibleWait(durationS: real) returns (o: Outcome)
      modifies this`now, this`stopRequested, this`watchdogTimedOut
      ensures old(now) <= now && (old(stopRequested) ==> stopRequested)
      ensures o.Done? ==> !stopRequested && old(now) + durationS <= now
      ensures o.Raised? ==> o.error.ExecutionError? && stopRequested
    {
      var deadline := now + durationS;
      while true
        invariant old(now) <= now && (old(stopRequested) ==> stopRequested)
        decreases -(20.0 * (now - deadline)).Floor
      {
        :- RaiseIfStopRequested();
        var remaining := deadline - now;
        if remaining <= 0.0 {
          return Done;
        }
        now := now + if remaining < 0.05 then remaining else 0.05;
        Environment();
      }
    }

    // ---- Outputs ----

    ghost function OutputsNow(): Outputs
      reads this`outputStatus, this`outputActive, this`energized
    {
      Outputs(outputStatus, outputActive, energized)
    }

    /** A configuration or a ramp that ends with the output confirmed OFF. */
    method TurnOff(e: Endpoint) returns (o: Outcome)
      requires e != MokeField
      modifies this`now, this`stopRequested, this`watchdogTimedOut, this`energized, this`outputActive, this`outputStatus
      ensures old(now) <= now && (old(stopRequested) ==> stopRequested)
      ensures StepKeeps({}, dryRun, o.Done?, old(outputStatus), old(energized), outputStatus, energized)
      ensures o.Done? ==> outputStatus == old(outputStatus)[e := Off] && outputActive == old(outputActive) - {e} && e !in energized
      ensures o.Done? ==> Confirms(e, old(OutputsNow()), OutputsNow())
    {
      o := ForceOff(e);
      if o.Raised? {
        return;
      }
      outputActive := outputActive - {e};
      outputStatus := outputStatus[e := Off];
      return Done;
    }

    method Record(e: Endpoint, enabled: bool)
      modifies this`outputActive, this`outputStatus
      ensures outputStatus == old(outputStatus)[e := if enabled then On else Off]
      ensures outputActive == if enabled then old(outputActive) + {e} else old(outputActive) - {e}
    {
      outputActive := if enabled then outputActive + {e} else outputActive - {e};
      outputStatus := outputStatus[e := if enabled then On else Off];
    }

    /** Switches an output. A dry run replaces ON by OFF, and refuses to go on unless OFF is confirmed. */
    method SetOutput(e: Endpoint, requested: bool) returns (o: Outcome)
      requires e != MokeField
      modifies this`now, this`stopRequested, this`watchdogTimedOut, this`archive, this`energized, this`outputActive,
               this`outputStatus
      ensures old(now) <= now && (old(stopRequested) ==> stopRequested)
      ensures QuietlyExtends(old(archive), archive)
      ensures StepKeeps(if requested then {e} else {}, dryRun, o.Done?, old(outputStatus), old(energized), outputStatus, energized)
      ensures o.Done? ==> e in outputStatus && outputStatus[e] == (if e in energized then On else Off)
      ensures o.Done? && dryRun ==> outputStatus[e] == Off
      ensures o.Done? ==> Confirms(e, old(OutputsNow()), OutputsNow()) && (dryRun ==> e !in energized)
    {
      var effective := requested && !dryRun;
      var actual: bool;
      o, actual := Drive(e, effective);
      if o.Raised? {
        return;
      }
      Record(e, actual);
      if dryRun {
        if actual {
          return Raised(ExecutionError);
        }
        if requested {
          o := Emit(OtherEvent("dry_run_output_action_suppressed"));
        }
      }
    }

    /** A live reading of an output that an earlier action of this run must have left on. */
    method AssertOn(e: Endpoint) returns (o: Outcome)
      modifies this`now, this`stopRequested, this`watchdogTimedOut, this`archive, this`outputActive, this`outputStatus
      ensures old(now) <= now && (old(stopRequested) ==> stopRequested)
      ensures QuietlyExtends(old(archive), archive)
      ensures StepKeeps({}, dryRun, o.Done?, old(outputStatus), energized, outputStatus, energized)
      ensures o.Done? ==> e.Owner() != Moke && e in outputStatus
      ensures o.Done? && !dryRun ==> e in energized && outputStatus[e] == On
      ensures o.Done? ==> Confirms(e, old(OutputsNow()), OutputsNow())
    {
      if e.Owner() == Moke {
        return Raised(ExecutionError);
      }
      var actual: bool;
      o, actual := ReadBack(e);
      if o.Raised? {
        return;
      }
      Record(e, actual);
      if !dryRun && !actual {
        return Raised(ExecutionError);
      }
      if dryRun {
        :- Emit(OtherEvent("dry_run_output_continuity_suppressed"));
      }
      var inheritsSameSettings: bool := *;
      o := if inheritsSameSettings then Done else Raised(ExecutionError);
    }

    /** A new complete analyzer setup confirms RF OFF; a patch of selected fields carries no such proof. */
    method ConfigureAnalyzer(c: Config) returns (o: Outcome)
      modifies this`now, this`stopRequested, this`watchdogTimedOut, this`energized, this`outputActive, this`outputStatus
      ensures old(now) <= now && (old(stopRequested) ==> stopRequested)
      ensures StepKeeps({}, dryRun, o.Done?, old(outputStatus), old(energized), outputStatus, energized)
      ensures o.Done? ==> OutputEffect(ConfigureAnritsu(c), dryRun, anritsuOwnsOutput, old(OutputsNow()), OutputsNow())
    {
      var verified: bool := *;
      if c.mask.None? && anritsuOwnsOutput && verified {
        o := TurnOff(AnritsuSg);
      } else {
        o := Query();
      }
    }

    method ConfigureSignalGenerator() returns (o: Outcome)
      modifies this`now, this`stopRequested, this`watchdogTimedOut, this`energized, this`outputActive, this`outputStatus
      ensures old(now) <= now && (old(stopRequested) ==> stopRequested)
      ensures StepKeeps({}, dryRun, o.Done?, old(outputStatus), old(energized), outputStatus, energized)
      ensures o.Done? ==> Confirms(AnritsuSg, old(OutputsNow()), OutputsNow())
    {
      var actual: bool;
      o, actual := Drive(AnritsuSg, false);
      if o.Done? {
        Record(AnritsuSg, actual);
      }
    }

    /** A live update must not change the RF output. */
    method UpdateSignalGenerator() returns (o: Outcome)
      modifies this`now, this`stopRequested, this`watchdogTimedOut, this`energized, this`outputActive, this`outputStatus
      ensures old(now) <= now && (old(stopRequested) ==> stopRequested)
      ensures StepKeeps({}, dryRun, o.Done?, old(outputStatus), old(energized), outputStatus, energized)
      ensures o.Done? ==> outputActive - {AnritsuSg} == old(outputActive) - {AnritsuSg}
      ensures o.Done? ==> (AnritsuSg in energized <==> AnritsuSg in old(outputActive))
      ensures o.Done? ==> Confirms(AnritsuSg, old(OutputsNow()), OutputsNow())
    {
      var expected := AnritsuSg in outputActive;
      var actual: bool;
      o, actual := Drive(AnritsuSg, false);
      if o.Raised? {
        return;
      }
      if actual != expected {
        return Raised(ExecutionError);
      }
      Record(AnritsuSg, actual);
    }

    method SampleKeithley(s: Smu) returns (o: Outcome)
      modifies this`now, this`stopRequested, this`watchdogTimedOut, this`outputActive, this`outputStatus,
               this`compliance
      ensures old(now) <= now && (old(stopRequested) ==> stopRequested)
      ensures StepKeeps({}, dryRun, o.Done?, old(outputStatus), energized, outputStatus, energized)
      ensures compliance - {s} == old(compliance) - {s}
      ensures o.Done? ==> Confirms(KeithleyOut(s), old(OutputsNow()), OutputsNow())
      ensures o.Raised? ==> OutputsNow() == old(OutputsNow())
    {
      var enabled: bool;
      o, enabled := ReadBack(KeithleyOut(s));
      if o.Raised? {
        return;
      }
      var mustStop: bool := *;
      compliance := if mustStop then compliance + {s} else compliance - {s};
      Record(KeithleyOut(s), enabled);
    }

    // ---- MOKE voltage ----

    method ConfigureMoke(plan: Option<MokePlan>) returns (o: Outcome)
      modifies this`now, this`stopRequested, this`watchdogTimedOut, this`archive, this`mokePlan
      ensures old(now) <= now && (old(stopRequested) ==> stopRequested)
      ensures QuietlyExtends(old(archive), archive)
      ensures o.Done? ==> mokeAvailable && plan.Some? && mokePlan == plan
    {
      if !mokeAvailable || plan.None? {
        return Raised(ExecutionError);
      }
      mokePlan := plan;
      :- Query();
      o := Emit(OtherEvent("moke_plan_prepared"));
    }

    /** Every channel that the run has driven off zero is one it owns, and then it owns the output. */
    ghost predicate MokeTracked()
      reads this`mokeDriven, this`mokeOwnedChannels, this`mokeOwnsOutput
    {
      mokeDriven <= mokeOwnedChannels && (mokeDriven != {} ==> mokeOwnsOutput)
    }

    /** Ramps a channel; whatever comes of it, the channel may be off zero from then on. */
    method RampVout(channel: int) returns (o: Outcome)
      modifies this`now, this`stopRequested, this`watchdogTimedOut, this`mokeDriven
      ensures old(now) <= now && (old(stopRequested) ==> stopRequested)
      ensures mokeDriven == old(mokeDriven) + {channel}
    {
      mokeDriven := mokeDriven + {channel};
      o := Query();
    }

    method ArmMoke(plan: Option<MokePlan>) returns (o: Outcome)
      modifies this`now, this`stopRequested, this`watchdogTimedOut, this`mokeOwnsOutput, this`mokeOwnedChannels,
               this`mokeStops, this`mokeDriven, this`outputStatus
      ensures old(now) <= now && (old(stopRequested) ==> stopRequested)
      ensures StepKeeps({}, dryRun, o.Done?, old(outputStatus), energized, outputStatus, energized)
      ensures (!mokeAvailable || plan != mokePlan) ==> o.Raised? && mokeOwnsOutput == old(mokeOwnsOutput)
      ensures mokeAvailable && plan == mokePlan && dryRun ==> o.Done?
      ensures mokeOwnsOutput && !old(mokeOwnsOutput) ==> mokeAvailable && !dryRun
      ensures old(mokeOwnsOutput) ==> mokeOwnsOutput
      ensures old(MokeTracked()) ==> MokeTracked()
      ensures outputStatus == old(outputStatus) || outputStatus == old(outputStatus)[MokeField := Unknown]
    {
      if !mokeAvailable || plan != mokePlan {
        return Raised(ExecutionError);
      }
      if !dryRun {
        :- Query();
        mokeOwnsOutput := true;
        if plan.Some? {
          mokeOwnedChannels := mokeOwnedChannels + {plan.value.vout};
        }
        outputStatus := outputStatus[MokeField := Unknown];
      }
      return Done;
    }

    method UpdateMoke(vout: int) returns (o: Outcome)
      modifies this`now, this`stopRequested, this`watchdogTimedOut, this`mokeOwnsOutput, this`mokeOwnedChannels,
               this`mokeStops, this`mokeDriven
      ensures old(now) <= now && (old(stopRequested) ==> stopRequested)
      ensures (!mokeAvailable || mokePlan.None?) ==> o.Raised? && mokeOwnsOutput == old(mokeOwnsOutput)
      ensures mokeAvailable && mokePlan.Some? && !dryRun ==> vout in mokeDriven
      ensures dryRun ==> mokeDriven == old(mokeDriven)
      ensures mokeOwnsOutput && !old(mokeOwnsOutput) ==> mokeAvailable && !dryRun
      ensures old(mokeOwnsOutput) ==> mokeOwnsOutput
      ensures old(MokeTracked()) ==> MokeTracked()
    {
      if !mokeAvailable || mokePlan.None? {
        return Raised(ExecutionError);
      }
      if !dryRun {
        mokeOwnedChannels, mokeOwnsOutput := mokeOwnedChannels + {vout}, true;
        o := RampVout(vout);
      } else {
        o := Query();
      }
    }

    method StopMoke(target: Option<int>) returns (o: Outcome)
      modifies this`now, this`stopRequested, this`watchdogTimedOut, this`archive, this`mokePlan, this`mokeOwnsOutput,
               this`mokeOwnedChannels, this`mokeStops, this`mokeDriven, this`outputStatus
      ensures old(now) <= now && (old(stopRequested) ==> stopRequested)
      ensures QuietlyExtends(old(archive), archive)
      ensures StepKeeps({}, dryRun, o.Done?, old(outputStatus), energized, outputStatus, energized)
      ensures outputStatus == old(outputStatus) || outputStatus == old(outputStatus)[MokeField := Unknown]
      ensures o.Done? ==> mokeAvailable && mokePlan == None
      ensures mokeOwnsOutput && !old(mokeOwnsOutput) ==> mokeAvailable && !dryRun
      ensures old(mokeOwnsOutput) ==> mokeOwnsOutput
      ensures old(MokeTracked()) ==> MokeTracked()
      ensures !dryRun && target.Some? && mokeAvailable ==> StopTried(old(mokeStops), mokeStops, target.value)
      ensures !dryRun && o.Done? ==> AllConfirmed(old(mokeStops), mokeStops)
    {
      if !mokeAvailable {
        return Raised(ExecutionError);
      }
      if !dryRun {
        mokeOwnsOutput := true;
        var channels := if target.Some? then {target.value} else mokeOwnedChannels;
        :- StopOwnedMokeChannels(channels, {});
      }
      mokePlan := None;
      return Done;
    }

    /** The channels a stop is for: those owned, or else the prepared one, without those held. */
    function MokeTargets(owned: set<int>, held: set<int>): set<int>
      reads this`mokePlan
    {
      (if owned == {} && mokePlan.Some? then {mokePlan.value.vout} else owned) - held
    }

    /**
     Brings every owned channel that is not held to zero. One failure does not keep the others from being tried; the
     stop succeeds exactly when every channel was confirmed.
     */
    method StopOwnedMokeChannels(owned: set<int>, held: set<int>) returns (o: Outcome)
      modifies this`now, this`stopRequested, this`watchdogTimedOut, this`archive, this`mokeOwnedChannels,
               this`mokeStops, this`mokeDriven, this`outputStatus
      ensures old(now) <= now && (old(stopRequested) ==> stopRequested)
      ensures QuietlyExtends(old(archive), archive)
      ensures outputStatus == old(outputStatus)[MokeField := Unknown]
      ensures forall c | c in MokeTargets(owned, held) :: StopTried(old(mokeStops), mokeStops, c)
      ensures o.Done? <==> AllConfirmed(old(mokeStops), mokeStops)
      ensures |old(mokeStops)| <= |mokeStops| && mokeStops[..|old(mokeStops)|] == old(mokeStops)
      ensures old(mokeOwnedChannels) <= mokeOwnedChannels && mokeDriven <= old(mokeDriven)
      ensures o.Done? ==> forall c | c in MokeTargets(owned, held) :: c !in mokeDriven
      ensures forall c | c in owned && c !in held :: StopTried(old(mokeStops), mokeStops, c)
      ensures owned == {} && mokePlan.Some? && mokePlan.value.vout !in held ==> StopTried(old(mokeStops), mokeStops, mokePlan.value.vout)
      ensures owned == {} && mokePlan.None? ==> AnyStopTried(old(mokeStops), mokeStops)
    {
      var channels := if owned == {} && mokePlan.Some? then {mokePlan.value.vout} else owned;
      var targets := channels - held;
      outputStatus := outputStatus[MokeField := Unknown];
      o := Done;
      if channels == {} {
        // A stop with no owned channel keeps the instrument's own current-channel meaning.
        o := StopOneChannel(None);
        assert mokeStops[|old(mokeStops)|] == MokeStop(None, o.Done?);
      }
      while targets != {}
        invariant old(now) <= now && (old(stopRequested) ==> stopRequested)
        invariant QuietlyExtends(old(archive), archive)
        invariant outputStatus == old(outputStatus)[MokeField := Unknown]
        invariant |old(mokeStops)| <= |mokeStops| && mokeStops[..|old(mokeStops)|] == old(mokeStops)
        invariant old(mokeOwnedChannels) <= mokeOwnedChannels && mokeDriven <= old(mokeDriven)
        invariant channels == {} ==> targets == {} && AnyStopTried(old(mokeStops), mokeStops)
        invariant o.Done? ==> forall c | c in channels - held && c !in targets :: c !in mokeDriven
        invariant forall c | c in channels - held && c !in targets :: StopTried(old(mokeStops), mokeStops, c)
        invariant o.Done? <==> AllConfirmed(old(mokeStops), mokeStops)
        decreases targets
      {
        SomeMember(targets);
        var channel :| channel in targets;
        targets := targets - {channel};
        mokeOwnedChannels := mokeOwnedChannels + {channel};
        ghost var before, stops := archive, mokeStops;
        var zeroed := StopOneChannel(Some(channel));
        QuietlyExtendsTransitive(old(archive), before, archive);
        StopsGrow(old(mokeStops), stops, mokeStops, channels - held - targets - {channel}, channel, zeroed.Done?);
        if zeroed.Raised? {
          o := Raised(ExecutionError);
        }
      }
    }

    lemma StopsGrow(start: seq<MokeStop>, before: seq<MokeStop>, after: seq<MokeStop>, tried: set<int>, channel: int, confirmed: bool)
      requires |start| <= |before| && after == before + [MokeStop(Some(channel), confirmed)]
      requires forall c | c in tried :: StopTried(start, before, c)
      ensures forall c | c in tried || c == channel :: StopTried(start, after, c)
      ensures AllConfirmed(start, after) <==> AllConfirmed(start, before) && confirmed
    {
      assert after[|before|] == MokeStop(Some(channel), confirmed);
      forall c | c in tried ensures StopTried(start, after, c) {
        var i :| |start| <= i < |before| && before[i].channel == Some(c);
        assert after[i] == before[i];
      }
      forall i | |start| <= i < |before| ensures after[i] == before[i] {
      }
    }

    lemma SomeMember(channels: set<int>)
      ensures channels == {} || exists c :: c in channels
    {
      if forall c :: c !in channels {
        assert channels == {};
      }
    }

    method StopOneChannel(channel: Option<int>) returns (o: Outcome)
      modifies this`now, this`stopRequested, this`watchdogTimedOut, this`archive, this`mokeStops, this`mokeDriven
      ensures old(now) <= now && (old(stopRequested) ==> stopRequested)
      ensures QuietlyExtends(old(archive), archive)
      ensures mokeStops == old(mokeStops) + [MokeStop(channel, o.Done?)]
      ensures mokeDriven == if o.Done? && channel.Some? then old(mokeDriven) - {channel.value} else old(mokeDriven)
    {
      QuietlyExtendsSelf(archive);
      o := Query();
      if o.Done? {
        EmitAfterFault("moke_dac_shutdown");
        var zeroConfirmed: bool := *;
        o := if zeroConfirmed then Done else Raised(ExecutionError);
        if zeroConfirmed && channel.Some? {
          mokeDriven := mokeDriven - {channel.value};
        }
      }
      mokeStops := mokeStops + [MokeStop(channel, o.Done?)];
    }

    // ---- Acquisition ----

    method SampleActive(s: Smu) returns (o: Outcome)
      modifies this`now, this`stopRequested, this`watchdogTimedOut, this`outputActive, this`outputStatus,
               this`compliance
      ensures old(now) <= now && (old(stopRequested) ==> stopRequested)
      ensures StepKeeps({}, dryRun, o.Done?, old(outputStatus), energized, outputStatus, energized)
      ensures Resampled(old(OutputsNow()), OutputsNow())
    {
      o := Done;
      if KeithleyOut(s) in outputActive {
        o := SampleKeithley(s);
      }
    }

    /** One raw sweep, committed before the next is requested. A failing store may still have committed it. */
    method StoreOneSweep() returns (o: Outcome)
      modifies this`now, this`stopRequested, this`watchdogTimedOut, this`outputActive, this`outputStatus,
               this`compliance, this`rawSweeps
      ensures old(now) <= now && (old(stopRequested) ==> stopRequested)
      ensures StepKeeps({}, dryRun, o.Done?, old(outputStatus), energized, outputStatus, energized)
      ensures old(rawSweeps) <= rawSweeps <= old(rawSweeps) + 1
      ensures o.Done? ==> rawSweeps == old(rawSweeps) + if compliance == {} then 1 else 0
      ensures Resampled(old(OutputsNow()), OutputsNow())
    {
      o := SampleActive(SmuA);
      if o.Raised? {
        return;
      }
      :- SampleActive(SmuB);
      if compliance != {} {
        return Done;
      }
      :- Query();
      rawSweeps := rawSweeps + 1;
      o := Query();
    }

    /**
     Complete sweeps, averaged; a timed reference goes on until its duration has passed. Before every sweep the active
     sources are sampled, and nothing is acquired once one of them has to be stopped.
     */
    method AcquireAveragedSpectrum(block: Acquisition, isReference: bool) returns (o: Outcome, acquired: bool)
      modifies this`now, this`stopRequested, this`watchdogTimedOut, this`outputActive, this`outputStatus,
               this`compliance, this`rawSweeps
      ensures old(now) <= now && (old(stopRequested) ==> stopRequested)
      ensures StepKeeps({}, dryRun, o.Done?, old(outputStatus), energized, outputStatus, energized)
      ensures old(rawSweeps) <= rawSweeps
      ensures rawSweeps <= old(rawSweeps) + if block.minimumDurationS != 0.0 then MOST_SWEEPS else block.averageCount
      ensures o.Done? ==> (acquired <==> compliance == {})
      ensures acquired ==> o.Done? && rawSweeps >= old(rawSweeps) + block.averageCount
      ensures acquired ==> old(now) + block.minimumDurationS <= now
      ensures Resampled(old(OutputsNow()), OutputsNow())
    {
      acquired := false;
      if !(1 <= block.averageCount <= MOST_SWEEPS) {
        return Raised(ExecutionError), false;
      }
      :- Query();
      if !(0.0 <= block.interSweepDelayS <= 3600.0) || !(0.0 <= block.minimumDurationS <= 3600.0) {
        return Raised(ExecutionError), false;
      }
      if block.minimumDurationS != 0.0 && !isReference {
        return Raised(ExecutionError), false;
      }
      var started := now;
      var limit := if block.minimumDurationS != 0.0 then MOST_SWEEPS else block.averageCount;
      var count := 0;
      while count < limit
        invariant old(now) <= started <= now && (old(stopRequested) ==> stopRequested)
        invariant StepKeeps({}, dryRun, true, old(outputStatus), energized, outputStatus, energized)
        invariant Resampled(old(OutputsNow()), OutputsNow())
        invariant count <= limit && rawSweeps == old(rawSweeps) + count
        invariant count > 0 ==> compliance == {}
        decreases limit - count
      {
        :- RaiseIfStopRequested();
        if count > 0 && block.interSweepDelayS > 0.0 {
          :- InterruptibleWait(block.interSweepDelayS);
        }
        :- StoreOneSweep();
        if compliance != {} {
          return Done, false;
        }
        var consistent: bool := *;
        if !consistent {
          return Raised(ExecutionError), false;
        }
        count := count + 1;
        if count >= block.averageCount && now - started >= block.minimumDurationS {
          break;
        }
      }
      if now - started < block.minimumDurationS {
        return Raised(ExecutionError), false;
      }
      :- Query();
      return Done, true;
    }

    method AcquireReferenceBlock(block: Acquisition) returns (o: Outcome)
      modifies this`now, this`stopRequested, this`watchdogTimedOut, this`archive, this`outputActive, this`outputStatus,
               this`compliance, this`rawSweeps, this`referenceReady
      ensures old(now) <= now && (old(stopRequested) ==> stopRequested)
      ensures QuietlyExtends(old(archive), archive)
      ensures StepKeeps({}, dryRun, o.Done?, old(outputStatus), energized, outputStatus, energized)
      ensures old(rawSweeps) <= rawSweeps
      ensures rawSweeps <= old(rawSweeps) +
        if block.fromFile then 0 else if block.minimumDurationS != 0.0 then MOST_SWEEPS else block.averageCount
      ensures Resampled(old(OutputsNow()), OutputsNow())
      ensures o.Done? && (block.fromFile || compliance == {}) ==> referenceReady
    {
      if block.fromFile {
        :- Query();
      } else {
        var acquired: bool;
        o, acquired := AcquireAveragedSpectrum(block, true);
        if o.Raised? || !acquired {
          return;
        }
      }
      :- Query();
      referenceReady := true;
      o := Emit(OtherEvent("reference_stored"));
    }

    method AcquireSpectrumBlock(block: Acquisition) returns (o: Outcome, acquired: bool)
      modifies this`now, this`stopRequested, this`watchdogTimedOut, this`outputActive, this`outputStatus,
               this`compliance, this`rawSweeps
      ensures old(now) <= now && (old(stopRequested) ==> stopRequested)
      ensures StepKeeps({}, dryRun, o.Done?, old(outputStatus), energized, outputStatus, energized)
      ensures old(rawSweeps) <= rawSweeps
      ensures rawSweeps <= old(rawSweeps) + if block.minimumDurationS != 0.0 then MOST_SWEEPS else block.averageCount
      ensures o.Done? ==> (acquired <==> compliance == {})
      ensures acquired ==> o.Done?
      ensures Resampled(old(OutputsNow()), OutputsNow())
      ensures acquired && block.needsReference ==> referenceReady
    {
      if block.needsReference && !referenceReady {
        return Raised(ExecutionError), false;
      }
      o, acquired := AcquireAveragedSpectrum(block, false);
      if acquired {
        var processed: bool := *;
        if !processed {
          return Raised(ExecutionError), false;
        }
      }
    }

    // ---- One action ----

    /** The actions that drive outputs or read them. */
    method ExecuteOutputAction(k: Kind) returns (o: Outcome)
      requires k.ConfigureRigol? || k.ConfigureRigolOutput? || k.ConfigureKeithley? || k.ConfigureAnritsu? || k.ConfigureAnritsuSg?
               || k.UpdateAnritsuSg? || k.RampKeithleyToZero? || k.AssertOutputOn? || k.MeasureKeithley?
      modifies this`now, this`stopRequested, this`watchdogTimedOut, this`archive, this`energized, this`outputActive,
               this`outputStatus, this`compliance
      ensures old(now) <= now && (old(stopRequested) ==> stopRequested)
      ensures QuietlyExtends(old(archive), archive)
      ensures StepKeeps({}, dryRun, o.Done?, old(outputStatus), old(energized), outputStatus, energized)
      ensures o.Done? ==> OutputEffect(k, dryRun, anritsuOwnsOutput, old(OutputsNow()), OutputsNow())
    {
      hide Truthful, FieldUnproven, Confirms, QuietlyExtends;
      QuietlyExtendsSelf(archive);
      match k {
        case ConfigureRigol(r, _) => o := TurnOff(RigolOut(r));
        case ConfigureRigolOutput(r, _) => o := TurnOff(RigolOut(r));
        case ConfigureKeithley(s, _) => o := TurnOff(KeithleyOut(s));
        case RampKeithleyToZero(s, _) => o := TurnOff(KeithleyOut(s));
        case ConfigureAnritsu(c) => o := ConfigureAnalyzer(c);
        case ConfigureAnritsuSg(_) => o := ConfigureSignalGenerator();
        case UpdateAnritsuSg(_) => o := UpdateSignalGenerator();
        case AssertOutputOn(e) => o := AssertOn(e);
        case MeasureKeithley(s) => o := SampleKeithley(s);
      }
    }

    method ExecuteMokeAction(k: Kind) returns (o: Outcome)
      requires k.ConfigureMokeBox? || k.ArmMokeVoltage? || k.UpdateMokeVoltage? || k.StopMokeVoltage? || k.MeasureMokeHall?
      modifies this`now, this`stopRequested, this`watchdogTimedOut, this`archive, this`mokePlan, this`mokeOwnsOutput,
               this`mokeOwnedChannels, this`mokeStops, this`mokeDriven, this`outputStatus
      ensures old(now) <= now && (old(stopRequested) ==> stopRequested)
      ensures QuietlyExtends(old(archive), archive)
      ensures StepKeeps({}, dryRun, o.Done?, old(outputStatus), energized, outputStatus, energized)
      ensures mokeOwnsOutput && !old(mokeOwnsOutput) ==> mokeAvailable && !dryRun
      ensures old(mokeOwnsOutput) ==> mokeOwnsOutput
      ensures old(MokeTracked()) ==> MokeTracked()
      ensures o.Done? ==> mokeAvailable && MokePermits(k, old(mokePlan)) && mokePlan == MokePlanAfter(k, old(mokePlan))
      ensures !ChangesMokePlan(k) ==> mokePlan == old(mokePlan)
      ensures o.Done? ==> OutputEffect(k, dryRun, anritsuOwnsOutput, old(OutputsNow()), OutputsNow())
    {
      hide Truthful, FieldUnproven, QuietlyExtends;
      QuietlyExtendsSelf(archive);
      match k {
        case ConfigureMokeBox(_, _, _, plan) => o := ConfigureMoke(plan);
        case ArmMokeVoltage(plan) => o := ArmMoke(plan);
        case UpdateMokeVoltage(vout, _, _, _) => o := UpdateMoke(vout);
        case StopMokeVoltage(target, _) => o := StopMoke(target);
        case MeasureMokeHall(_) =>
          if !mokeAvailable {
            return Raised(ExecutionError);
          }
          o := Query();
      }
    }

    method ExecutePlainAction(k: Kind) returns (o: Outcome)
      requires k.MeasureLakeshoreField? || k.Wait? || k.UploadToElab? || k.Checkpoint? || k.VerifyConnection?
               || k.ConfigureAnritsuAdvanced? || k.UpdateKeithleyLevel? || k.UpdateKeithleyCompliance?
               || k.UpdateRigolFrequency? || k.UpdateRigolLevels?
      modifies this`now, this`stopRequested, this`watchdogTimedOut, this`archive
      ensures old(now) <= now && (old(stopRequested) ==> stopRequested)
      ensures QuietlyExtends(old(archive), archive)
      ensures o.Done? && k.Wait? ==> old(now) + k.durationS <= now
    {
      if k.Wait? {
        o := InterruptibleWait(k.durationS);
      } else if k.UploadToElab? {
        o := Emit(OtherEvent("elab_upload_scheduled"));
      } else if k.Checkpoint? {
        o := Done;
      } else {
        o := Query();
      }
    }

    method ExecuteSwitch(k: Kind) returns (o: Outcome)
      requires k.SetKeithleyOutput? || k.SetRigolOutput? || k.SetAnritsuSgOutput?
      modifies this`now, this`stopRequested, this`watchdogTimedOut, this`archive, this`energized, this`outputActive,
               this`outputStatus
      ensures old(now) <= now && (old(stopRequested) ==> stopRequested)
      ensures QuietlyExtends(old(archive), archive)
      ensures StepKeeps(TurnsOn(k), dryRun, o.Done?, old(outputStatus), old(energized), outputStatus, energized)
      ensures o.Done? ==> OutputEffect(k, dryRun, anritsuOwnsOutput, old(OutputsNow()), OutputsNow())
    {
      hide Truthful, FieldUnproven, Confirms, QuietlyExtends;
      match k {
        case SetKeithleyOutput(s, enabled) => o := SetOutput(KeithleyOut(s), enabled);
        case SetRigolOutput(r, enabled) => o := SetOutput(RigolOut(r), enabled);
        case SetAnritsuSgOutput(enabled) => o := SetOutput(AnritsuSg, enabled);
      }
    }

    method ExecuteAcquisition(k: Kind) returns (o: Outcome, acquired: bool)
      requires k.AcquireReference? || k.AcquireSpectrum?
      requires k.AcquireSpectrum? ==> !k.block.fromFile && k.block.minimumDurationS == 0.0
      modifies this`now, this`stopRequested, this`watchdogTimedOut, this`archive, this`outputActive, this`outputStatus,
               this`compliance, this`rawSweeps, this`referenceReady
      ensures old(now) <= now && (old(stopRequested) ==> stopRequested)
      ensures QuietlyExtends(old(archive), archive)
      ensures StepKeeps({}, dryRun, o.Done?, old(outputStatus), energized, outputStatus, energized)
      ensures old(rawSweeps) <= rawSweeps
      ensures rawSweeps <= old(rawSweeps) +
        if k.block.fromFile then 0 else if k.block.minimumDurationS != 0.0 then MOST_SWEEPS else k.block.averageCount
      ensures o.Done? ==> (acquired <==> k.AcquireSpectrum? && compliance == {})
      ensures o.Done? ==> OutputEffect(k, dryRun, anritsuOwnsOutput, old(OutputsNow()), OutputsNow())
    {
      hide Truthful, FieldUnproven, Resampled, QuietlyExtends;
      QuietlyExtendsSelf(archive);
      acquired := false;
      if k.AcquireReference? {
        o := AcquireReferenceBlock(k.block);
      } else {
        o, acquired := AcquireSpectrumBlock(k.block);
      }
    }

    /** Hands one action to the instruments. */
    method ExecuteImpl(a: PlanAction, ghost origin: Origin) returns (o: Outcome, acquired: bool)
      modifies this`now, this`stopRequested, this`watchdogTimedOut, this`archive, this`energized, this`outputActive,
               this`outputStatus, this`compliance, this`mokePlan, this`mokeOwnsOutput, this`mokeOwnedChannels,
               this`mokeStops, this`mokeDriven,
               this`referenceReady, this`dispatches, this`rawSweeps
      requires CompiledAction(a)
      ensures old(now) <= now && (old(stopRequested) ==> stopRequested)
      ensures QuietlyExtends(old(archive), archive)
      ensures StepKeeps(TurnsOn(a.kind), dryRun, o.Done?, old(outputStatus), old(energized), outputStatus, energized)
      ensures dispatches == old(dispatches) + [Dispatch(origin, old(stopRequested))]
      ensures old(rawSweeps) <= rawSweeps <= old(rawSweeps) + SweepsPerAttempt(a)
      ensures mokeOwnsOutput && !old(mokeOwnsOutput) ==> mokeAvailable && !dryRun
      ensures old(mokeOwnsOutput) ==> mokeOwnsOutput
      ensures old(MokeTracked()) ==> MokeTracked()
      ensures o.Done? ==> (acquired <==> a.kind.AcquireSpectrum? && compliance == {})
      ensures o.Done? ==> MokePermits(a.kind, old(mokePlan)) && mokePlan == MokePlanAfter(a.kind, old(mokePlan))
      ensures !ChangesMokePlan(a.kind) ==> mokePlan == old(mokePlan)
      ensures o.Done? ==> OutputEffect(a.kind, dryRun, anritsuOwnsOutput, old(OutputsNow()), OutputsNow())
    {
      hide Truthful, FieldUnproven, OutputEffect, QuietlyExtends, MokePermits, MokePlanAfter, MokeTracked;
      QuietlyExtendsSelf(archive);
      dispatches := dispatches + [Dispatch(origin, stopRequested)];
      acquired := false;
      var k := a.kind;
      if k.ConfigureMokeBox? || k.ArmMokeVoltage? || k.UpdateMokeVoltage? || k.StopMokeVoltage? || k.MeasureMokeHall? {
        o := ExecuteMokeAction(k);
        return;
      }
      OtherActionsArePermitted(k, mokePlan);
      if k.SetKeithleyOutput? || k.SetRigolOutput? || k.SetAnritsuSgOutput? {
        o := ExecuteSwitch(k);
      } else if k.AcquireReference? || k.AcquireSpectrum? {
        o, acquired := ExecuteAcquisition(k);
      } else if k.ConfigureRigol? || k.ConfigureRigolOutput? || k.ConfigureKeithley? || k.ConfigureAnritsu? || k.ConfigureAnritsuSg?
                || k.UpdateAnritsuSg? || k.RampKeithleyToZero? || k.AssertOutputOn? || k.MeasureKeithley? {
        o := ExecuteOutputAction(k);
      } else {
        o := ExecutePlainAction(k);
        PlainActionsTouchNoOutput(k, OutputsNow());
      }
    }

    lemma PlainActionsTouchNoOutput(k: Kind, outputs: Outputs)
      requires Reported(k).None? && !k.ConfigureAnritsu? && !k.AcquireReference? && !k.AcquireSpectrum?
      requires !k.ArmMokeVoltage? && !k.StopMokeVoltage?
      ensures OutputEffect(k, dryRun, anritsuOwnsOutput, outputs, outputs)
    {
    }

    // ---- Operations under the shutdown budget ----

    /** Starts the budget at the first operation; refuses the operation when nothing is left. */
    method BeginCleanup(slots: nat) returns (o: Outcome, budgetS: real)
      requires 0 < slots
      modifies this`now, this`stopRequested, this`watchdogTimedOut, this`archive, this`shutdownDeadline
      ensures old(now) <= now && (old(stopRequested) ==> stopRequested)
      ensures QuietlyExtends(old(archive), archive)
      ensures shutdownDeadline == Some(if old(shutdownDeadline).Some? then old(shutdownDeadline.value) else old(now) + policy.shutdownTimeoutS)
      ensures var left := Left(shutdownDeadline, now, policy.shutdownTimeoutS);
              && (o.Done? <==> left > 0.0)
              && (o.Done? ==> budgetS == left / slots as real)
      ensures Reserve() <= old(Reserve())
    {
      if shutdownDeadline.None? {
        shutdownDeadline := Some(now + policy.shutdownTimeoutS);
        EmitAfterFault("shutdown_budget_started");
      }
      Environment();
      var remaining := shutdownDeadline.value - now;
      if remaining <= 0.0 {
        FlagWatchdogTimeout();
        return Raised(ExecutionError), 0.0;
      }
      return Done, remaining / slots as real;
    }

    /** Ends the operation; one that returned normally but took longer than its slice has failed. */
    method EndCleanup(startedS: real, budgetS: real, ghost beganS: real, inner: Outcome) returns (o: Outcome)
      requires 0.0 <= budgetS && beganS <= now
      modifies this`stopRequested, this`watchdogTimedOut, this`spent
      ensures old(stopRequested) ==> stopRequested
      ensures o.Done? ==> inner.Done? && now - startedS <= budgetS
      ensures old(spent) <= spent <= old(spent) + budgetS && spent - old(spent) <= now - beganS
      ensures inner.Done? && now - startedS <= budgetS ==> o.Done?
      ensures inner.Raised? ==> o == inner
    {
      spent := spent + if now - beganS < budgetS then now - beganS else budgetS;
      if inner.Raised? {
        return inner;
      }
      if now - startedS > budgetS {
        FlagWatchdogTimeout();
        return Raised(ExecutionError);
      }
      return Done;
    }

    function HasAdapter(k: Kind): bool {
      match k
      case AssertOutputOn(_) => false
      case Checkpoint => false
      case Wait(_, _) => false
      case UploadToElab => false
      case ConfigureMokeBox(_, _, _, _) => mokeAvailable
      case ArmMokeVoltage(_) => mokeAvailable
      case UpdateMokeVoltage(_, _, _, _) => mokeAvailable
      case StopMokeVoltage(_, _) => mokeAvailable
      case MeasureMokeHall(_) => mokeAvailable
      case _ => true
    }

    lemma CleanupHasAdapter(a: PlanAction)
      requires CompiledAction(a)
      ensures a.isFinally && !a.completionOnly && (a.kind.StopMokeVoltage? ==> mokeAvailable) ==> HasAdapter(a.kind)
    {
    }

    /** A clean-up action runs under the shutdown budget, and leaves half of what is left of it to the shutdown. */
    method Execute(a: PlanAction, ghost origin: Origin) returns (o: Outcome, acquired: bool)
      modifies this`now, this`stopRequested, this`watchdogTimedOut, this`archive, this`energized, this`outputActive,
               this`outputStatus, this`compliance, this`mokePlan, this`mokeOwnsOutput, this`mokeOwnedChannels,
               this`mokeStops, this`mokeDriven,
               this`referenceReady, this`dispatches, this`rawSweeps, this`shutdownDeadline, this`spent
      requires CompiledAction(a)
      ensures old(now) <= now && (old(stopRequested) ==> stopRequested)
      ensures QuietlyExtends(old(archive), archive)
      ensures StepKeeps(TurnsOn(a.kind), dryRun, o.Done?, old(outputStatus), old(energized), outputStatus, energized)
      ensures OneDispatch(old(dispatches), dispatches, origin, stopRequested)
      ensures old(rawSweeps) <= rawSweeps <= old(rawSweeps) + SweepsPerAttempt(a)
      ensures mokeOwnsOutput && !old(mokeOwnsOutput) ==> mokeAvailable && !dryRun
      ensures old(mokeOwnsOutput) ==> mokeOwnsOutput
      ensures old(MokeTracked()) ==> MokeTracked()
      ensures o.Done? ==> (acquired <==> a.kind.AcquireSpectrum? && compliance == {})
      ensures o.Done? ==> MokePermits(a.kind, old(mokePlan)) && mokePlan == MokePlanAfter(a.kind, old(mokePlan))
      ensures !ChangesMokePlan(a.kind) ==> mokePlan == old(mokePlan)
      ensures BudgetStep(policy.shutdownTimeoutS, 2, old(shutdownDeadline), old(now), old(spent), shutdownDeadline, now, spent)
      ensures dispatches == old(dispatches) ==> o.Raised? && a.isFinally && !a.completionOnly && LeftNow() <= 0.0
      ensures a.isFinally && !a.completionOnly && (a.kind.StopMokeVoltage? ==> mokeAvailable) ==> shutdownDeadline.Some?
    {
      hide Truthful, FieldUnproven, MokePermits, MokePlanAfter, CompiledAction, QuietlyExtends, ChangesMokePlan,
           TurnsOn,
           SweepsPerAttempt, BudgetStep, SliceUsed, HasAdapter;
      acquired := false;
      CleanupHasAdapter(a);
      if a.isFinally && !a.completionOnly && HasAdapter(a.kind) {
        var startedS := now;
        var budgetS: real;
        o, budgetS := BeginCleanup(2);
        ghost var beganS, logged := now, archive;
        if o.Raised? {
          OperationRefused(policy.shutdownTimeoutS, 2, old(shutdownDeadline), old(now), old(spent), now);
          return;
        }
        o, acquired := ExecuteImpl(a, origin);
        QuietlyExtendsTransitive(old(archive), logged, archive);
        SliceIsPart(Left(shutdownDeadline, beganS, policy.shutdownTimeoutS), 2);
        o := EndCleanup(startedS, budgetS, beganS, o);
        OperationBooked(policy.shutdownTimeoutS, 2, old(shutdownDeadline), old(now), old(spent), beganS, budgetS, now, spent);
      } else {
        o, acquired := ExecuteImpl(a, origin);
        OperationRefused(policy.shutdownTimeoutS, 2, old(shutdownDeadline), old(now), old(spent), now);
      }
    }

    // ---- Attempts ----

    /** Live output state can forbid what the static policy would retry: nothing is set up again under power. */
    function CanRetry(a: PlanAction): bool
      reads this`outputActive
    {
      match a.kind
      case ConfigureRigol(r, _) => RigolOut(r) !in outputActive
      case ConfigureRigolOutput(r, _) => RigolOut(r) !in outputActive
      case ConfigureKeithley(s, _) => KeithleyOut(s) !in outputActive
      case _ => RetryCandidate(a)
    }

    ghost function Reserve(): real
      reads this`now, this`spent, this`shutdownDeadline
    {
      ReserveOf(shutdownDeadline, now, spent, policy.shutdownTimeoutS)
    }

    ghost function Books(): Ledger
      reads this`dispatches, this`times, this`rawSweeps
    {
      Ledger(dispatches, times, rawSweeps)
    }

    /** One attempt within its deadline. */
    method Attempt(a: PlanAction, ghost origin: Origin) returns (o: Outcome, acquired: bool)
      modifies this`now, this`stopRequested, this`watchdogTimedOut, this`archive, this`energized, this`outputActive,
               this`outputStatus, this`compliance, this`mokePlan, this`mokeOwnsOutput, this`mokeOwnedChannels,
               this`mokeStops, this`mokeDriven,
               this`referenceReady, this`dispatches, this`rawSweeps, this`shutdownDeadline, this`spent, this`times
      requires CompiledAction(a)
      ensures old(now) <= now && (old(stopRequested) ==> stopRequested)
      ensures QuietlyExtends(old(archive), archive)
      ensures StepKeeps(TurnsOn(a.kind), dryRun, o.Done?, old(outputStatus), old(energized), outputStatus, energized)
      ensures OneAttempt(policy, a, origin, old(Books()), Books(), stopRequested)
      ensures mokeOwnsOutput && !old(mokeOwnsOutput) ==> mokeAvailable && !dryRun
      ensures old(mokeOwnsOutput) ==> mokeOwnsOutput
      ensures old(MokeTracked()) ==> MokeTracked()
      ensures o.Done? ==> (acquired <==> a.kind.AcquireSpectrum? && compliance == {})
      ensures o.Done? ==> MokePermits(a.kind, old(mokePlan)) && mokePlan == MokePlanAfter(a.kind, old(mokePlan))
      ensures !ChangesMokePlan(a.kind) ==> mokePlan == old(mokePlan)
      ensures times == old(times) + [Attempted(now - old(now), policy.DeadlineFor(a))]
      ensures o.Done? ==> now - old(now) <= policy.DeadlineFor(a)
      ensures Reserve() <= old(Reserve())
      ensures o.Done? ==> dispatches != old(dispatches)
    {
      hide Truthful, FieldUnproven, QuietlyExtends, MokePermits, MokePlanAfter, ChangesMokePlan, TurnsOn,
           SweepsPerAttempt, SliceUsed, CompiledAction, MokeTracked;
      QuietlyExtendsSelf(archive);
      acquired := false;
      var deadlineS, started := policy.DeadlineFor(a), now;
      Environment();
      if HasAdapter(a.kind) && deadlineS - (now - started) <= 0.0 {
        o := Raised(ExecutionError);
      } else {
        o, acquired := Execute(a, origin);
        if o.Done? && now - started > deadlineS {
          FlagWatchdogTimeout();
          o := Raised(ExecutionError);
        }
      }
      times := times + [Attempted(now - started, deadlineS)];
    }

    /** Reports the failed attempt and waits, unless Stop interrupts, before the next one. */
    method PauseBeforeRetry() returns (o: Outcome)
      modifies this`now, this`stopRequested, this`watchdogTimedOut, this`archive, this`times
      ensures old(now) <= now && (old(stopRequested) ==> stopRequested)
      ensures QuietlyExtends(old(archive), archive)
      ensures o.Done? ==> !stopRequested && Books() == Waited(policy, old(Books()))
      ensures o.Raised? ==> Books() == old(Books()) || Books() == Waited(policy, old(Books()))
      ensures o.Raised? ==> o.error.ExecutionError?
    {
      o := Emit(OtherEvent("action_retry"));
      if o.Raised? {
        return;
      }
      times := times + [BackedOff(policy.retryBackoffS)];
      o := InterruptibleWait(policy.retryBackoffS);
    }

    /** One attempt and, if it may be repeated, the pause before the next. */
    method AttemptThenPause(a: PlanAction, ghost origin: Origin, last: bool)
      returns (o: Outcome, acquired: bool, again: bool, ghost attempted: Ledger)
      modifies this`now, this`stopRequested, this`watchdogTimedOut, this`archive, this`energized, this`outputActive,
               this`outputStatus, this`compliance, this`mokePlan, this`mokeOwnsOutput, this`mokeOwnedChannels,
               this`mokeStops, this`mokeDriven,
               this`referenceReady, this`dispatches, this`rawSweeps, this`shutdownDeadline, this`spent, this`times
      requires CompiledAction(a)
      ensures old(now) <= now && (old(stopRequested) ==> stopRequested)
      ensures QuietlyExtends(old(archive), archive)
      ensures StepKeeps(TurnsOn(a.kind), dryRun, o.Done? && !again, old(outputStatus), old(energized), outputStatus, energized)
      ensures OneAttempt(policy, a, origin, old(Books()), attempted, stopRequested)
      ensures Books() == Waited(policy, attempted) || (!again && Books() == attempted)
      ensures last ==> !again && Books() == attempted
      ensures again ==> !stopRequested && Books() == Waited(policy, attempted)
      ensures mokeOwnsOutput && !old(mokeOwnsOutput) ==> mokeAvailable && !dryRun
      ensures old(mokeOwnsOutput) ==> mokeOwnsOutput
      ensures old(MokeTracked()) ==> MokeTracked()
      ensures o.Done? && !again ==> (acquired <==> a.kind.AcquireSpectrum? && compliance == {})
      ensures o.Done? && !again ==> MokePermits(a.kind, old(mokePlan)) && mokePlan == MokePlanAfter(a.kind, old(mokePlan))
      ensures !ChangesMokePlan(a.kind) ==> mokePlan == old(mokePlan)
      ensures o.Done? && !again ==> InTime(times, policy.DeadlineFor(a))
      ensures Reserve() <= old(Reserve())
      ensures o.Done? && !again ==> attempted.dispatches != old(dispatches)
      ensures !again && o.Raised? && o.error.DeviceError? ==> (watchdogTimedOut || last) && Books() == attempted
    {
      hide Truthful, FieldUnproven, QuietlyExtends, MokePermits, MokePlanAfter, CompiledAction, TurnsOn,
           ChangesMokePlan,
           SweepsPerAttempt;
      again := false;
      o, acquired := Attempt(a, origin);
      attempted := Books();
      if !(o.Raised? && o.error.DeviceError?) || watchdogTimedOut || last {
        return;
      }
      ghost var logged := archive;
      o := PauseBeforeRetry();
      QuietlyExtendsTransitive(old(archive), logged, archive);
      again := o.Done?;
    }

    /**
     An action under the policy: only a device error is retried, only when the action may be, never once the watchdog
     has struck, and never without looking at Stop again.
     */
    method ExecuteWithPolicy(a: PlanAction, ghost origin: Origin) returns (o: Outcome, acquired: bool)
      modifies this`now, this`stopRequested, this`watchdogTimedOut, this`archive, this`energized, this`outputActive,
               this`outputStatus, this`compliance, this`mokePlan, this`mokeOwnsOutput, this`mokeOwnedChannels,
               this`mokeStops, this`mokeDriven,
               this`referenceReady, this`dispatches, this`rawSweeps, this`shutdownDeadline, this`spent, this`times
      requires CompiledAction(a) && policy.Accepted() && AfterStop(dispatches) == 0
      ensures old(now) <= now && (old(stopRequested) ==> stopRequested)
      ensures QuietlyExtends(old(archive), archive)
      ensures StepKeeps(TurnsOn(a.kind), dryRun, o.Done?, old(outputStatus), old(energized), outputStatus, energized)
      ensures WithinPolicy(policy, a, origin, old(Books()), Books())
      ensures AfterStop(dispatches) <= 1 && (!stopRequested ==> AfterStop(dispatches) == 0)
      ensures mokeOwnsOutput && !old(mokeOwnsOutput) ==> mokeAvailable && !dryRun
      ensures old(mokeOwnsOutput) ==> mokeOwnsOutput
      ensures old(MokeTracked()) ==> MokeTracked()
      ensures o.Done? ==> (acquired <==> a.kind.AcquireSpectrum? && compliance == {})
      ensures o.Done? ==> MokePermits(a.kind, old(mokePlan)) && mokePlan == MokePlanAfter(a.kind, old(mokePlan))
      ensures !ChangesMokePlan(a.kind) ==> mokePlan == old(mokePlan)
      ensures o.Done? ==> InTime(times, policy.DeadlineFor(a))
      ensures (a.kind.ConfigureRigol? || a.kind.ConfigureRigolOutput?) && RigolOut(a.kind.rigol) in old(outputActive) ==>
                AttemptsIn(times) <= AttemptsIn(old(times)) + 1
      ensures a.kind.ConfigureKeithley? && KeithleyOut(a.kind.smu) in old(outputActive) ==> AttemptsIn(times) <= AttemptsIn(old(times)) + 1
      ensures Reserve() <= old(Reserve())
      ensures o.Done? ==> HandedOver(old(dispatches), dispatches, origin)
      ensures o.Raised? && o.error.DeviceError? ==>
        watchdogTimedOut || AttemptsIn(times) == AttemptsIn(old(times)) + 1 + if old(CanRetry(a)) then policy.retryCount else 0
    {
      hide Truthful, FieldUnproven, QuietlyExtends, SweepsPerAttempt, WithinPolicy, Accounted, OneAttempt, HandedOver,
           AttemptsIn, AfterStop, MokePermits, MokePlanAfter, MokeTracked;
      QuietlyExtendsSelf(archive);
      acquired := false;
      NothingDone(policy, a, origin, Books());
      if a.completionOnly {
        :- RaiseIfStopRequested();
      }
      var retries := if CanRetry(a) then policy.retryCount else 0;
      assert retries <= policy.Retries(a);
      var attempt := 0;
      while true
        invariant Reserve() <= old(Reserve())
        invariant attempt <= retries
        invariant attempt > 0 ==> TurnsOn(a.kind) == {} && !ChangesMokePlan(a.kind)
        invariant mokePlan == old(mokePlan)
        invariant old(now) <= now && (old(stopRequested) ==> stopRequested)
        invariant QuietlyExtends(old(archive), archive)
        invariant StepKeeps(TurnsOn(a.kind), dryRun, true, old(outputStatus), old(energized), outputStatus, energized)
        invariant Accounted(policy, a, origin, old(Books()), Books(), attempt) && AfterStop(dispatches) == 0
        invariant mokeOwnsOutput && !old(mokeOwnsOutput) ==> mokeAvailable && !dryRun
        invariant old(mokeOwnsOutput) ==> mokeOwnsOutput
        invariant old(MokeTracked()) ==> MokeTracked()
        decreases retries - attempt
      {
        ghost var logged, books, attempted := archive, Books(), Books();
        var again: bool;
        o, acquired, again, attempted := AttemptThenPause(a, origin, attempt >= retries);
        QuietlyExtendsTransitive(old(archive), logged, archive);
        AttemptAccounted(policy, a, origin, old(Books()), books, attempted, attempt, stopRequested);
        if !again {
          if Books() != attempted {
            WaitedWithinPolicy(policy, a, origin, old(Books()), attempted, attempt);
          }
          return;
        }
        attempt := attempt + 1;
      }
    }

    // ---- Shutdown ----

    method MarkUnknown(e: Endpoint)
      modifies this`outputStatus
      ensures outputStatus == old(outputStatus)[e := Unknown]
    {
      outputStatus := outputStatus[e := Unknown];
    }

    /** One channel of a device with held outputs: confirmed ON where held, and switched OFF where not. */
    method SettleChannel(e: Endpoint, held: bool) returns (o: Outcome)
      requires e.Owner() != Moke
      modifies this`now, this`stopRequested, this`watchdogTimedOut, this`archive, this`energized, this`outputStatus
      ensures old(now) <= now && (old(stopRequested) ==> stopRequested)
      ensures QuietlyExtends(old(archive), archive)
      ensures StepKeeps({}, dryRun, o.Done?, old(outputStatus), old(energized), outputStatus, energized)
      ensures forall x | x != e ::
                && (x in energized <==> x in old(energized)) && (x in outputStatus <==> x in old(outputStatus))
                && (x in outputStatus ==> outputStatus[x] == old(outputStatus)[x])
      ensures o.Done? ==> e in outputStatus && outputStatus[e] == (if held then On else Off) && (e in energized <==> held)
    {
      var actual: bool;
      if held {
        o, actual := ReadBack(e);
      } else {
        o, actual := Drive(e, false);
      }
      if o.Done? && actual == held {
        outputStatus := outputStatus[e := if actual then On else Off];
        EmitAfterFault("completion_output_confirmed");
      } else {
        MarkUnknown(e);
        o := Raised(ExecutionError);
      }
    }

    method SettleBothChannels(first: Endpoint, second: Endpoint, held: set<Endpoint>) returns (o: Outcome)
      requires first != second && first.Owner() == second.Owner() && first.Owner() != Moke
      modifies this`now, this`stopRequested, this`watchdogTimedOut, this`archive, this`energized, this`outputStatus
      ensures old(now) <= now && (old(stopRequested) ==> stopRequested)
      ensures QuietlyExtends(old(archive), archive)
      ensures StepKeeps({}, dryRun, o.Done?, old(outputStatus), old(energized), outputStatus, energized)
      ensures OnlyOn(first.Owner(), old(outputStatus), old(energized), outputStatus, energized)
      ensures o.Done? ==> Settled(first.Owner(), {first, second}, held, outputStatus, energized)
    {
      var o1 := SettleChannel(first, first in held);
      ghost var logged := archive;
      var o2 := SettleChannel(second, second in held);
      QuietlyExtendsTransitive(old(archive), logged, archive);
      o := if o1.Raised? then o1 else o2;
    }

    predicate HoldsOn(d: Device, held: set<Endpoint>) {
      exists e | e in held :: e.Owner() == d
    }

    /** Without held outputs, a device gets its emergency command; a mere receiver is only asked to stop its sweep. */
    method ShutdownOwnedDevice(d: Device, held: set<Endpoint>) returns (o: Outcome)
      requires d.Keithley? || d.Rigol? || d.Anritsu? || d.Moke?
      modifies this`now, this`stopRequested, this`watchdogTimedOut, this`archive, this`energized, this`outputStatus,
               this`mokeOwnedChannels, this`mokeStops, this`mokeDriven
      ensures old(now) <= now && (old(stopRequested) ==> stopRequested)
      ensures QuietlyExtends(old(archive), archive)
      ensures StepKeeps({}, dryRun, o.Done?, old(outputStatus), old(energized), outputStatus, energized)
      ensures OnlyOn(d, old(outputStatus), old(energized), outputStatus, energized)
      ensures o.Done? && HoldsOn(d, held) && d.Keithley? ==>
        Settled(d, {KeithleyOut(SmuA), KeithleyOut(SmuB)}, held, outputStatus, energized)
      ensures o.Done? && HoldsOn(d, held) && d.Rigol? ==>
        Settled(d, {RigolOut(Ch1), RigolOut(Ch2)}, held, outputStatus, energized)
      ensures o.Done? && !HoldsOn(d, held) && (d.Keithley? || d.Rigol? || (d.Anritsu? && anritsuOwnsOutput)) ==>
        forall e | e in energized :: e.Owner() != d
      ensures d.Moke? ==> forall c | c in old(mokeOwnedChannels) && MokeVout(c) !in held :: StopTried(old(mokeStops), mokeStops, c)
      ensures d.Moke? ==> (o.Done? <==> AllConfirmed(old(mokeStops), mokeStops))
      ensures d.Moke? && o.Done? ==> forall c | c in old(mokeOwnedChannels) && MokeVout(c) !in held :: c !in mokeDriven
      ensures |old(mokeStops)| <= |mokeStops| && mokeStops[..|old(mokeStops)|] == old(mokeStops)
      ensures old(mokeOwnedChannels) <= mokeOwnedChannels && mokeDriven <= old(mokeDriven)
      ensures !d.Moke? ==> mokeStops == old(mokeStops) && mokeOwnedChannels == old(mokeOwnedChannels) && mokeDriven == old(mokeDriven)
    {
      if HoldsOn(d, held) && d.Keithley? {
        o := SettleBothChannels(KeithleyOut(SmuA), KeithleyOut(SmuB), held);
      } else if HoldsOn(d, held) && d.Rigol? {
        o := SettleBothChannels(RigolOut(Ch1), RigolOut(Ch2), held);
      } else if d.Anritsu? && !anritsuOwnsOutput {
        o := Query();
      } else if d.Moke? {
        o := StopOwnedMokeChannels(mokeOwnedChannels, set e | e in held && e.MokeVout? :: e.vout);
      } else {
        o := EmergencyOff(d);
      }
    }

    method ConfirmDeviceOutputsOff(d: Device)
      modifies this`outputStatus
      ensures outputStatus.Keys == old(outputStatus).Keys
      ensures forall e | e in outputStatus :: outputStatus[e] == if e.Owner() == d then Off else old(outputStatus)[e]
    {
      outputStatus := map e | e in outputStatus :: if e.Owner() == d then Off else outputStatus[e];
    }

    /** The outputs this run owns. */
    function OwnedOutputs(): set<Endpoint>
      reads this`requiredDevices, this`anritsuOwnsOutput
    {
      set e | e in SWITCHED && e.Owner() in requiredDevices && (e == AnritsuSg ==> anritsuOwnsOutput)
    }

    /** After a confirmed shutdown of one device. */
    method RecordShutdown(d: Device, held: set<Endpoint>)
      requires d.Keithley? || d.Rigol? || d.Anritsu? || d.Moke?
      requires forall e | e in held :: Retainable(e)
      requires HoldsOn(d, held) && d.Keithley? ==> Settled(d, {KeithleyOut(SmuA), KeithleyOut(SmuB)}, held, outputStatus, energized)
      requires HoldsOn(d, held) && d.Rigol? ==> Settled(d, {RigolOut(Ch1), RigolOut(Ch2)}, held, outputStatus, energized)
      requires !HoldsOn(d, held) && (d.Keithley? || d.Rigol? || (d.Anritsu? && anritsuOwnsOutput)) ==>
        forall e | e in energized :: e.Owner() != d
      requires OwnedOutputs() <= outputStatus.Keys
      modifies this`outputStatus
      ensures StepKeeps({}, dryRun, true, old(outputStatus), energized, outputStatus, energized)
      ensures OnlyOn(d, old(outputStatus), energized, outputStatus, energized)
      ensures Settled(d, OwnedOutputs(), held, outputStatus, energized)
    {
      if !d.Moke? && !HoldsOn(d, held) && (!d.Anritsu? || anritsuOwnsOutput) {
        ConfirmDeviceOutputsOff(d);
      }
    }

    ghost function Lost(): real
      reads this`now, this`spent
    {
      now - spent
    }

    ghost function LeftNow(): real
      reads this`now, this`shutdownDeadline
    {
      Left(shutdownDeadline, now, policy.shutdownTimeoutS)
    }

    ghost function MokeNow(): MokeBooks
      reads this`tried, this`mokeStops, this`mokeOwnedChannels, this`mokeDriven
    {
      MokeBooks(tried, mokeStops, mokeOwnedChannels, mokeDriven)
    }

    /** The shutdown commands of one device, and the time they took of its slice. */
    method ShutdownTimed(d: Device, held: set<Endpoint>, startedS: real, budgetS: real, ghost beganS: real) returns (o: Outcome)
      requires 0.0 <= budgetS && beganS <= now && (d.Keithley? || d.Rigol? || d.Anritsu? || d.Moke?)
      modifies this`now, this`stopRequested, this`watchdogTimedOut, this`archive, this`energized, this`outputStatus,
               this`mokeOwnedChannels, this`mokeStops, this`mokeDriven, this`spent
      ensures old(now) <= now && (old(stopRequested) ==> stopRequested)
      ensures QuietlyExtends(old(archive), archive)
      ensures StepKeeps({}, dryRun, o.Done?, old(outputStatus), old(energized), outputStatus, energized)
      ensures OnlyOn(d, old(outputStatus), old(energized), outputStatus, energized)
      ensures o.Done? && HoldsOn(d, held) && d.Keithley? ==>
        Settled(d, {KeithleyOut(SmuA), KeithleyOut(SmuB)}, held, outputStatus, energized)
      ensures o.Done? && HoldsOn(d, held) && d.Rigol? ==>
        Settled(d, {RigolOut(Ch1), RigolOut(Ch2)}, held, outputStatus, energized)
      ensures o.Done? && !HoldsOn(d, held) && (d.Keithley? || d.Rigol? || (d.Anritsu? && anritsuOwnsOutput)) ==>
        forall e | e in energized :: e.Owner() != d
      ensures old(spent) <= spent <= old(spent) + budgetS && spent - old(spent) <= now - beganS
      ensures TurnTaken(d, held, o.Done?, old(MokeNow()), MokeNow())
    {
      hide Truthful, FieldUnproven, Settled, OnlyOn, StopTried, QuietlyExtends;
      o := ShutdownOwnedDevice(d, held);
      o := EndCleanup(startedS, budgetS, beganS, o);
      AllConfirmedNone(mokeStops);
    }

    /** The shutdown commands of one device, within its slice of the budget. */
    method ShutdownWithinSlice(d: Device, slots: nat, held: set<Endpoint>) returns (o: Outcome, ghost turn: Turn)
      requires 0 < slots && (d.Keithley? || d.Rigol? || d.Anritsu? || d.Moke?)
      modifies this`now, this`stopRequested, this`watchdogTimedOut, this`archive, this`energized, this`outputStatus,
               this`mokeOwnedChannels, this`mokeStops, this`mokeDriven, this`shutdownDeadline, this`spent, this`offers
      ensures old(now) <= now && (old(stopRequested) ==> stopRequested)
      ensures QuietlyExtends(old(archive), archive)
      ensures StepKeeps({}, dryRun, o.Done?, old(outputStatus), old(energized), outputStatus, energized)
      ensures OnlyOn(d, old(outputStatus), old(energized), outputStatus, energized)
      ensures o.Done? && HoldsOn(d, held) && d.Keithley? ==>
        Settled(d, {KeithleyOut(SmuA), KeithleyOut(SmuB)}, held, outputStatus, energized)
      ensures o.Done? && HoldsOn(d, held) && d.Rigol? ==>
        Settled(d, {RigolOut(Ch1), RigolOut(Ch2)}, held, outputStatus, energized)
      ensures o.Done? && !HoldsOn(d, held) && (d.Keithley? || d.Rigol? || (d.Anritsu? && anritsuOwnsOutput)) ==>
        forall e | e in energized :: e.Owner() != d
      ensures BudgetStep(policy.shutdownTimeoutS, slots, old(shutdownDeadline), old(now), old(spent), shutdownDeadline, now, spent)
      ensures OfferMade(old(offers), offers, d, slots, old(LeftNow()), Lost() - old(Lost()))
      ensures turn.device == d && turn.Served() && LeftNow() <= turn.leftS <= old(LeftNow())
      ensures offers == old(offers) + if turn.sliceS.Some? then [Offer(d, turn.sliceS.value)] else []
      ensures TurnsKept({d}, held, o.Done?, old(MokeNow()), MokeNow().(turns := tried + [turn]))
    {
      hide Truthful, FieldUnproven, Settled, SliceUsed, OfferMade, BudgetStep, TurnsKept, TurnTaken, QuietlyExtends;
      var startedS := now;
      var budgetS: real;
      o, budgetS := BeginCleanup(slots);
      ghost var beganS, logged, leftBegan, spent0 := now, archive, LeftNow(), spent;
      turn := Turn(d, leftBegan, if o.Done? then Some(budgetS) else None);
      if o.Done? {
        offers := offers + [Offer(d, budgetS)];
        SliceIsPart(leftBegan, slots);
        o := ShutdownTimed(d, held, startedS, budgetS, beganS);
        QuietlyExtendsTransitive(old(archive), logged, archive);
        SliceBooked(old(offers), d, slots, old(LeftNow()), leftBegan, Lost() - old(Lost()), budgetS, spent - spent0);
        OperationBooked(policy.shutdownTimeoutS, slots, old(shutdownDeadline), old(now), old(spent), beganS, budgetS, now, spent);
        TurnKept(d, held, o.Done?, old(MokeNow()), MokeNow(), turn);
      } else {
        OperationRefused(policy.shutdownTimeoutS, slots, old(shutdownDeadline), old(now), old(spent), now);
        SliceRefused(offers, d, slots, old(LeftNow()), Lost() - old(Lost()));
        TurnRefused(d, held, MokeNow(), turn);
      }
    }

    lemma AllConfirmedNone(stops: seq<MokeStop>)
      ensures AllConfirmed(stops, stops)
    {
    }

    /** The shutdown of one device. Whatever it raises is kept to itself. */
    method TryDevice(d: Device, slots: nat, held: set<Endpoint>) returns (ok: bool)
      requires 0 < slots && (d.Keithley? || d.Rigol? || d.Anritsu? || d.Moke?)
      requires forall e | e in held :: Retainable(e)
      requires OwnedOutputs() <= outputStatus.Keys
      modifies this`now, this`stopRequested, this`watchdogTimedOut, this`archive, this`energized, this`outputStatus,
               this`mokeOwnedChannels, this`mokeStops, this`mokeDriven, this`shutdownDeadline, this`spent,
               this`offers, this`tried
      ensures old(now) <= now && (old(stopRequested) ==> stopRequested)
      ensures QuietlyExtends(old(archive), archive)
      ensures StepKeeps({}, dryRun, true, old(outputStatus), old(energized), outputStatus, energized)
      ensures OnlyOn(d, old(outputStatus), old(energized), outputStatus, energized)
      ensures ok ==> Settled(d, OwnedOutputs(), held, outputStatus, energized)
      ensures |tried| == |old(tried)| + 1 && tried[..|old(tried)|] == old(tried)
      ensures var turn := tried[|old(tried)|];
              && turn.device == d && turn.Served() && LeftNow() <= turn.leftS <= old(LeftNow())
              && offers == old(offers) + if turn.sliceS.Some? then [Offer(d, turn.sliceS.value)] else []
      ensures BudgetStep(policy.shutdownTimeoutS, slots, old(shutdownDeadline), old(now), old(spent), shutdownDeadline, now, spent)
      ensures OfferMade(old(offers), offers, d, slots, old(LeftNow()), Lost() - old(Lost()))
      ensures TurnsKept({d}, held, ok, old(MokeNow()), MokeNow())
      ensures Reserve() <= old(Reserve())
    {
      hide Truthful, FieldUnproven, SliceUsed, OfferMade, QuietlyExtends, TurnsKept;
      var o;
      ghost var turn;
      o, turn := ShutdownWithinSlice(d, slots, held);
      tried := tried + [turn];
      ok := o.Done?;
      if ok {
        RecordShutdown(d, held);
      }
    }

    lemma TurnsInScope(d: Device, scope: set<Device>, held: set<Endpoint>, ok: bool, b: MokeBooks, a: MokeBooks)
      requires d in scope && TurnsKept({d}, held, ok, b, a)
      ensures TurnsKept(scope, held, ok, b, a)
    {
      hide StopTried, AllConfirmed, MokeTurn, MokeOffered;
    }

    ghost predicate ShareKept(share: Share, scope: set<Device>, attempted: set<Device>)
      reads this`now, this`spent, this`shutdownDeadline, this`offers
    {
      && share.lost <= Lost()
      && (share.fair ==> 0.0 <= share.whole)
      && (share.fair ==>
            Sharing(share.whole, |scope|, |scope - attempted|, Lost() - share.lost, LeftNow(), share.offers, offers, attempted))
    }

    /** The next device of a shutdown: of the time left it gets an equal slice with those still to go. */
    method ShutDownNext(d: Device, scope: set<Device>, attempted: set<Device>, held: set<Endpoint>, ghost share: Share) returns (ok: bool)
      requires d in scope && forall x | x in scope :: x.Keithley? || x.Rigol? || x.Anritsu? || x.Moke?
      requires forall e | e in held :: Retainable(e)
      requires OwnedOutputs() <= outputStatus.Keys
      requires ShareKept(share, scope, attempted) && (share.fair ==> d !in attempted)
      modifies this`now, this`stopRequested, this`watchdogTimedOut, this`archive, this`energized, this`outputStatus,
               this`mokeOwnedChannels, this`mokeStops, this`mokeDriven, this`shutdownDeadline, this`spent,
               this`offers, this`tried
      ensures old(now) <= now && (old(stopRequested) ==> stopRequested)
      ensures QuietlyExtends(old(archive), archive)
      ensures StepKeeps({}, dryRun, true, old(outputStatus), old(energized), outputStatus, energized)
      ensures OnlyOn(d, old(outputStatus), old(energized), outputStatus, energized)
      ensures ok ==> Settled(d, OwnedOutputs(), held, outputStatus, energized)
      ensures |tried| == |old(tried)| + 1 && tried[..|old(tried)|] == old(tried)
      ensures tried[|old(tried)|].device == d && tried[|old(tried)|].Served()
      ensures ShareKept(share, scope, attempted + {d})
      ensures TurnsKept(scope, held, ok, old(MokeNow()), MokeNow())
      ensures Reserve() <= old(Reserve())
    {
      hide Truthful, FieldUnproven, Settled, SliceUsed, OfferMade, Sharing, QuietlyExtends, OnlyOn, OwnedOutputs,
           TurnsKept;
      var slots := Slots(scope, attempted, d);
      ok := TryDevice(d, slots, held);
      TurnsInScope(d, scope, held, ok, old(MokeNow()), MokeNow());
      if share.fair {
        assert scope - attempted == (scope - (attempted + {d})) + {d};
        SharingStep(share.whole, |scope|, slots, old(Lost()) - share.lost, old(LeftNow()), Lost() - share.lost, LeftNow(),
                    spent - old(spent), share.offers, old(offers), offers, attempted, d);
      }
    }

    /** Diagnostics during the shutdown cost time, and nothing else. */
    method ReportShutdown(name: string, ghost share: Share, ghost scope: set<Device>, ghost attempted: set<Device>)
      requires ShareKept(share, scope, attempted)
      modifies this`now, this`stopRequested, this`watchdogTimedOut, this`archive
      ensures old(now) <= now && (old(stopRequested) ==> stopRequested)
      ensures QuietlyExtends(old(archive), archive)
      ensures ShareKept(share, scope, attempted)
    {
      EmitAfterFault(name);
      if share.fair {
        SharingTime(share.whole, |scope|, |scope - attempted|, old(Lost()) - share.lost, old(LeftNow()),
                    Lost() - share.lost, LeftNow(), share.offers, offers, attempted);
      }
    }

    method FlushCheckpointStep(ghost share: Share, ghost scope: set<Device>, ghost attempted: set<Device>) returns (ok: bool)
      requires ShareKept(share, scope, attempted)
      modifies this`now, this`stopRequested, this`watchdogTimedOut, this`flushFailures
      ensures old(now) <= now && (old(stopRequested) ==> stopRequested)
      ensures flushFailures == old(flushFailures) + if ok then 0 else 1
      ensures ShareKept(share, scope, attempted)
    {
      var o := Query();
      ok := o.Done?;
      flushFailures := flushFailures + if ok then 0 else 1;
      if share.fair {
        SharingTime(share.whole, |scope|, |scope - attempted|, old(Lost()) - share.lost, old(LeftNow()),
                    Lost() - share.lost, LeftNow(), share.offers, offers, attempted);
      }
    }

    predicate IsPresent(d: Device) {
      d == Moke ==> mokeAvailable
    }

    /** A device of the compiled list; without its adapter the step fails. */
    method TakeDeviceStep(d: Device, scope: set<Device>, attempted: set<Device>, held: set<Endpoint>, ghost share: Share)
      returns (ok: bool, attempted1: set<Device>)
      requires d in scope && forall x | x in scope :: x.Keithley? || x.Rigol? || x.Anritsu? || x.Moke?
      requires forall e | e in held :: Retainable(e)
      requires OwnedOutputs() <= outputStatus.Keys
      requires ShareKept(share, scope, attempted) && (share.fair ==> d !in attempted)
      modifies this`now, this`stopRequested, this`watchdogTimedOut, this`archive, this`energized, this`outputStatus,
               this`mokeOwnedChannels, this`mokeStops, this`mokeDriven, this`shutdownDeadline, this`spent,
               this`offers, this`tried
      ensures old(now) <= now && (old(stopRequested) ==> stopRequested)
      ensures QuietlyExtends(old(archive), archive)
      ensures StepKeeps({}, dryRun, true, old(outputStatus), old(energized), outputStatus, energized)
      ensures OnlyOn(d, old(outputStatus), old(energized), outputStatus, energized)
      ensures ok ==> Settled(d, OwnedOutputs(), held, outputStatus, energized)
      ensures attempted1 == if IsPresent(d) then attempted + {d} else attempted
      ensures ok ==> IsPresent(d)
      ensures |old(tried)| <= |tried| && tried[..|old(tried)|] == old(tried)
      ensures IsPresent(d) ==> TriedSince(old(tried), tried, d)
      ensures ShareKept(share, scope, attempted1)
      ensures TurnsKept(scope, held, ok, old(MokeNow()), MokeNow())
      ensures Reserve() <= old(Reserve())
    {
      hide TurnsKept, StopTried, AllConfirmed, MokeOffered, MokeTurn;
      attempted1 := attempted;
      TurnsKeptSelf(scope, held, false, MokeNow());
      ReportShutdown("shutdown_action_started", share, scope, attempted);
      ghost var logged := archive;
      if !IsPresent(d) {
        ok := false;
      } else {
        ok := ShutDownNext(d, scope, attempted, held, share);
        attempted1 := attempted + {d};
      }
      QuietlyExtendsTransitive(old(archive), logged, archive);
      logged := archive;
      ReportShutdown(if ok then "shutdown_action_finished" else "shutdown_error", share, scope, attempted1);
      QuietlyExtendsTransitive(old(archive), logged, archive);
    }

    /** One step of the compiled list. Names out of scope, and unknown ones, give no ownership of an instrument. */
    method TakeListedStep(step: ShutdownStep, scope: set<Device>, attempted: set<Device>, held: set<Endpoint>, ghost share: Share)
      returns (ok: bool, attempted1: set<Device>)
      requires forall x | x in scope :: x.Keithley? || x.Rigol? || x.Anritsu? || x.Moke?
      requires forall e | e in held :: Retainable(e)
      requires OwnedOutputs() <= outputStatus.Keys
      requires ShareKept(share, scope, attempted) && (share.fair && step.DeviceStep? ==> step.device !in attempted)
      modifies this`now, this`stopRequested, this`watchdogTimedOut, this`archive, this`energized, this`outputStatus,
               this`mokeOwnedChannels, this`mokeStops, this`mokeDriven, this`shutdownDeadline, this`spent,
               this`offers, this`tried, this`flushFailures
      ensures old(now) <= now && (old(stopRequested) ==> stopRequested)
      ensures QuietlyExtends(old(archive), archive)
      ensures StepKeeps({}, dryRun, true, old(outputStatus), old(energized), outputStatus, energized)
      ensures ok && (forall d | d in attempted :: Settled(d, OwnedOutputs(), held, old(outputStatus), old(energized))) ==>
        forall d | d in attempted1 :: Settled(d, OwnedOutputs(), held, outputStatus, energized)
      ensures ok ==> flushFailures == old(flushFailures)
      ensures attempted1 == if step.DeviceStep? && step.device in scope && IsPresent(step.device) then attempted + {step.device} else attempted
      ensures |old(tried)| <= |tried| && tried[..|old(tried)|] == old(tried)
      ensures forall d | d in attempted1 && d !in attempted :: TriedSince(old(tried), tried, d)
      ensures ShareKept(share, scope, attempted1)
      ensures TurnsKept(scope, held, ok, old(MokeNow()), MokeNow())
      ensures Reserve() <= old(Reserve())
    {
      hide Truthful, FieldUnproven, QuietlyExtends, Settled, ShareKept, OwnedOutputs, TurnsKept;
      QuietlyExtendsSelf(archive);
      TurnsKeptSelf(scope, held, true, MokeNow());
      TurnsKeptSelf(scope, held, false, MokeNow());
      ok, attempted1 := true, attempted;
      if step.DeviceStep? && step.device in scope {
        ok, attempted1 := TakeDeviceStep(step.device, scope, attempted, held, share);
        if forall d | d in attempted :: Settled(d, OwnedOutputs(), held, old(outputStatus), old(energized)) {
          SettledElsewhere(step.device, attempted, OwnedOutputs(), held, old(outputStatus), old(energized), outputStatus, energized);
        }
      } else if step.FlushCheckpoint? {
        ReportShutdown("shutdown_action_started", share, scope, attempted);
        ok := FlushCheckpointStep(share, scope, attempted);
        ghost var logged := archive;
        ReportShutdown(if ok then "shutdown_action_finished" else "shutdown_error", share, scope, attempted);
        QuietlyExtendsTransitive(old(archive), logged, archive);
      }
    }

    /** A device in scope that the list left out gets its commands all the same. */
    method TakeFallbackStep(d: Device, scope: set<Device>, attempted: set<Device>, held: set<Endpoint>, ghost share: Share) returns (ok: bool)
      requires d in scope && d !in attempted
      requires forall x | x in scope :: x.Keithley? || x.Rigol? || x.Anritsu? || x.Moke?
      requires forall e | e in held :: Retainable(e)
      requires OwnedOutputs() <= outputStatus.Keys
      requires ShareKept(share, scope, attempted) && (share.fair ==> IsPresent(d))
      modifies this`now, this`stopRequested, this`watchdogTimedOut, this`archive, this`energized, this`outputStatus,
               this`mokeOwnedChannels, this`mokeStops, this`mokeDriven, this`shutdownDeadline, this`spent,
               this`offers, this`tried
      ensures old(now) <= now && (old(stopRequested) ==> stopRequested)
      ensures QuietlyExtends(old(archive), archive)
      ensures StepKeeps({}, dryRun, true, old(outputStatus), old(energized), outputStatus, energized)
      ensures ok && (forall x | x in attempted :: Settled(x, OwnedOutputs(), held, old(outputStatus), old(energized))) ==>
        forall x | x in attempted + {d} :: Settled(x, OwnedOutputs(), held, outputStatus, energized)
      ensures |old(tried)| <= |tried| && tried[..|old(tried)|] == old(tried)
      ensures IsPresent(d) ==> TriedSince(old(tried), tried, d)
      ensures ShareKept(share, scope, attempted + {d})
      ensures TurnsKept(scope, held, ok, old(MokeNow()), MokeNow())
      ensures ok ==> IsPresent(d)
      ensures Reserve() <= old(Reserve())
    {
      hide TurnsKept;
      TurnsKeptSelf(scope, held, false, MokeNow());
      if IsPresent(d) {
        ok := ShutDownNext(d, scope, attempted, held, share);
        if forall x | x in attempted :: Settled(x, OwnedOutputs(), held, old(outputStatus), old(energized)) {
          SettledElsewhere(d, attempted, OwnedOutputs(), held, old(outputStatus), old(energized), outputStatus, energized);
        }
      } else {
        ok := false;
      }
      if !ok {
        ghost var logged := archive;
        ReportShutdown("shutdown_error", share, scope, attempted + {d});
        QuietlyExtendsTransitive(old(archive), logged, archive);
      }
    }

    method RunListedSteps(steps: seq<ShutdownStep>, scope: set<Device>, held: set<Endpoint>, ghost share: Share)
      returns (confirmed: bool, attempted: set<Device>)
      requires forall x | x in scope :: x.Keithley? || x.Rigol? || x.Anritsu? || x.Moke?
      requires forall e | e in held :: Retainable(e)
      requires OwnedOutputs() <= outputStatus.Keys
      requires ShareKept(share, scope, {}) && (share.fair ==> DistinctDevices(steps))
      modifies this`now, this`stopRequested, this`watchdogTimedOut, this`archive, this`energized, this`outputStatus,
               this`mokeOwnedChannels, this`mokeStops, this`mokeDriven, this`shutdownDeadline, this`spent,
               this`offers, this`tried, this`flushFailures
      ensures old(now) <= now && (old(stopRequested) ==> stopRequested)
      ensures QuietlyExtends(old(archive), archive)
      ensures StepKeeps({}, dryRun, true, old(outputStatus), old(energized), outputStatus, energized)
      ensures attempted <= scope
      ensures confirmed ==> forall d | d in attempted :: Settled(d, OwnedOutputs(), held, outputStatus, energized)
      ensures confirmed ==> flushFailures == old(flushFailures)
      ensures |old(tried)| <= |tried|
      ensures forall d | d in attempted :: TriedSince(old(tried), tried, d)
      ensures ShareKept(share, scope, attempted)
      ensures TurnsKept(scope, held, confirmed, old(MokeNow()), MokeNow())
      ensures forall d | d in attempted :: IsPresent(d)
      ensures Reserve() <= old(Reserve())
    {
      hide Settled, ShareKept, Truthful, FieldUnproven, QuietlyExtends, OwnedOutputs, TriedSince, TurnsKept;
      QuietlyExtendsSelf(archive);
      TurnsKeptSelf(scope, held, true, MokeNow());
      StepKeepsSelf(dryRun, outputStatus, energized);
      confirmed, attempted := true, {};
      var i := 0;
      while i < |steps|
        invariant Reserve() <= old(Reserve())
        invariant 0 <= i <= |steps|
        invariant old(now) <= now && (old(stopRequested) ==> stopRequested)
        invariant QuietlyExtends(old(archive), archive)
        invariant StepKeeps({}, dryRun, true, old(outputStatus), old(energized), outputStatus, energized)
        invariant attempted <= scope
        invariant share.fair ==> forall d | d in attempted :: exists j :: 0 <= j < i && steps[j] == DeviceStep(d)
        invariant confirmed ==> forall d | d in attempted :: Settled(d, OwnedOutputs(), held, outputStatus, energized)
        invariant confirmed ==> flushFailures == old(flushFailures)
        invariant |old(tried)| <= |tried|
        invariant forall d | d in attempted :: TriedSince(old(tried), tried, d)
        invariant ShareKept(share, scope, attempted)
        invariant TurnsKept(scope, held, confirmed, old(MokeNow()), MokeNow())
        invariant forall d | d in attempted :: IsPresent(d)
      {
        ghost var logged, status0, energized0, tried0, attempted0 := archive, outputStatus, energized, tried, attempted;
        ghost var books0 := MokeNow();
        var ok: bool;
        ok, attempted := TakeListedStep(steps[i], scope, attempted, held, share);
        QuietlyExtendsTransitive(old(archive), logged, archive);
        StepKeepsTransitive(dryRun, old(outputStatus), old(energized), status0, energized0, outputStatus, energized);
        StillTried(old(tried), tried0, tried, attempted0, attempted);
        TurnsKeptTransitive(scope, held, confirmed, ok, old(MokeNow()), books0, MokeNow());
        confirmed := confirmed && ok;
        i := i + 1;
      }
    }

    /** The fallback for one device: nothing to do when it is out of scope or was tried before. */
    method TakeFallbackFor(d: Device, scope: set<Device>, attempted: set<Device>, held: set<Endpoint>, ghost share: Share)
      returns (ok: bool, attempted1: set<Device>)
      requires forall x | x in scope :: x.Keithley? || x.Rigol? || x.Anritsu? || x.Moke?
      requires forall e | e in held :: Retainable(e)
      requires OwnedOutputs() <= outputStatus.Keys
      requires ShareKept(share, scope, attempted) && (share.fair ==> forall x | x in scope :: IsPresent(x))
      modifies this`now, this`stopRequested, this`watchdogTimedOut, this`archive, this`energized, this`outputStatus,
               this`mokeOwnedChannels, this`mokeStops, this`mokeDriven, this`shutdownDeadline, this`spent,
               this`offers, this`tried
      ensures old(now) <= now && (old(stopRequested) ==> stopRequested)
      ensures QuietlyExtends(old(archive), archive)
      ensures StepKeeps({}, dryRun, true, old(outputStatus), old(energized), outputStatus, energized)
      ensures ok && (forall x | x in attempted :: Settled(x, OwnedOutputs(), held, old(outputStatus), old(energized))) ==>
        forall x | x in attempted1 :: Settled(x, OwnedOutputs(), held, outputStatus, energized)
      ensures attempted1 == if d in scope then attempted + {d} else attempted
      ensures |old(tried)| <= |tried| && tried[..|old(tried)|] == old(tried)
      ensures forall x | x in attempted1 && x !in attempted :: IsPresent(x) ==> TriedSince(old(tried), tried, x)
      ensures ShareKept(share, scope, attempted1)
      ensures TurnsKept(scope, held, ok, old(MokeNow()), MokeNow())
      ensures ok ==> forall x | x in attempted1 && x !in attempted :: IsPresent(x)
      ensures Reserve() <= old(Reserve())
    {
      hide TurnsKept;
      TurnsKeptSelf(scope, held, true, MokeNow());
      ok, attempted1 := true, attempted;
      if d in scope && d !in attempted {
        ok := TakeFallbackStep(d, scope, attempted, held, share);
        attempted1 := attempted + {d};
      } else if d in scope {
        assert attempted + {d} == attempted;
      }
    }

    ghost predicate PresentOnes(attempted: set<Device>, listed: set<Device>, tried0: seq<Turn>, tried1: seq<Turn>) {
      forall d | d in attempted && d !in listed && IsPresent(d) :: TriedSince(tried0, tried1, d)
    }

    lemma NoneLeftToTry(listed: set<Device>, tried: seq<Turn>)
      ensures PresentOnes(listed, listed, tried, tried)
    {
    }

    lemma StillPresentOnes(
      attempted0: set<Device>, attempted1: set<Device>, listed: set<Device>, start: seq<Turn>, before: seq<Turn>, after: seq<Turn>)
      requires |start| <= |before| <= |after| && after[..|before|] == before
      requires PresentOnes(attempted0, listed, start, before)
      requires forall x | x in attempted1 && x !in attempted0 :: IsPresent(x) ==> TriedSince(before, after, x)
      ensures PresentOnes(attempted1, listed, start, after)
    {
      forall d | d in attempted1 && d !in listed && IsPresent(d) ensures TriedSince(start, after, d) {
        if d in attempted0 {
          var i :| |start| <= i < |before| && before[i].device == d && before[i].Served();
          assert after[i] == before[i];
        }
      }
    }

    method RunFallback(scope: set<Device>, listed: set<Device>, held: set<Endpoint>, ghost share: Share)
      returns (confirmed: bool)
      requires forall x | x in scope :: x.Keithley? || x.Rigol? || x.Anritsu? || x.Moke?
      requires forall e | e in held :: Retainable(e)
      requires OwnedOutputs() <= outputStatus.Keys && listed <= scope
      requires ShareKept(share, scope, listed) && (share.fair ==> forall d | d in scope :: IsPresent(d))
      modifies this`now, this`stopRequested, this`watchdogTimedOut, this`archive, this`energized, this`outputStatus,
               this`mokeOwnedChannels, this`mokeStops, this`mokeDriven, this`shutdownDeadline, this`spent,
               this`offers, this`tried
      ensures old(now) <= now && (old(stopRequested) ==> stopRequested)
      ensures QuietlyExtends(old(archive), archive)
      ensures StepKeeps({}, dryRun, true, old(outputStatus), old(energized), outputStatus, energized)
      ensures confirmed && (forall d | d in listed :: Settled(d, OwnedOutputs(), held, old(outputStatus), old(energized))) ==>
        forall d | d in scope :: Settled(d, OwnedOutputs(), held, outputStatus, energized)
      ensures |old(tried)| <= |tried| && tried[..|old(tried)|] == old(tried)
      ensures PresentOnes(scope, listed, old(tried), tried)
      ensures ShareKept(share, scope, scope)
      ensures TurnsKept(scope, held, confirmed, old(MokeNow()), MokeNow())
      ensures confirmed ==> forall d | d in scope && d !in listed :: IsPresent(d)
      ensures Reserve() <= old(Reserve())
    {
      hide Settled, ShareKept, Truthful, FieldUnproven, QuietlyExtends, OwnedOutputs, PresentOnes, TurnsKept;
      TurnsKeptSelf(scope, held, true, MokeNow());
      QuietlyExtendsSelf(archive);
      StepKeepsSelf(dryRun, outputStatus, energized);
      NoneLeftToTry(listed, tried);
      confirmed := true;
      var order := [Anritsu, Keithley, Moke, Rigol];
      var attempted, i := listed, 0;
      while i < |order|
        invariant Reserve() <= old(Reserve())
        invariant 0 <= i <= |order|
        invariant old(now) <= now && (old(stopRequested) ==> stopRequested)
        invariant QuietlyExtends(old(archive), archive)
        invariant StepKeeps({}, dryRun, true, old(outputStatus), old(energized), outputStatus, energized)
        invariant attempted <= scope && forall j | 0 <= j < i && order[j] in scope :: order[j] in attempted
        invariant confirmed && (forall d | d in listed :: Settled(d, OwnedOutputs(), held, old(outputStatus), old(energized))) ==>
                    forall d | d in attempted :: Settled(d, OwnedOutputs(), held, outputStatus, energized)
        invariant |old(tried)| <= |tried| && tried[..|old(tried)|] == old(tried)
        invariant PresentOnes(attempted, listed, old(tried), tried)
        invariant ShareKept(share, scope, attempted)
        invariant TurnsKept(scope, held, confirmed, old(MokeNow()), MokeNow())
        invariant confirmed ==> forall d | d in attempted && d !in listed :: IsPresent(d)
      {
        ghost var books0 := MokeNow();
        ghost var logged, status0, energized0, tried0, attempted0 := archive, outputStatus, energized, tried, attempted;
        var ok: bool;
        ok, attempted := TakeFallbackFor(order[i], scope, attempted, held, share);
        QuietlyExtendsTransitive(old(archive), logged, archive);
        StepKeepsTransitive(dryRun, old(outputStatus), old(energized), status0, energized0, outputStatus, energized);
        StillPresentOnes(attempted0, attempted, listed, old(tried), tried0, tried);
        TurnsKeptTransitive(scope, held, confirmed, ok, old(MokeNow()), books0, MokeNow());
        confirmed := confirmed && ok;
        i := i + 1;
      }
      assert attempted == scope by {
        forall d | d in scope ensures d in attempted {
          assert d == order[0] || d == order[1] || d == order[2] || d == order[3];
        }
      }
    }

    /** The instruments a shutdown answers for: those with outputs, the receiver after a failure, the MOKE DAC when driven. */
    function ShutdownScope(success: bool): (scope: set<Device>)
      reads this`requiredDevices, this`anritsuOwnsOutput, this`mokeOwnsOutput
      ensures forall d | d in scope :: d.Keithley? || d.Rigol? || d.Anritsu? || d.Moke?
    {
      (set d | d in requiredDevices && (d.Keithley? || d.Rigol? || (d.Anritsu? && (anritsuOwnsOutput || !success))))
      + (if mokeOwnsOutput then {Moke} else {})
    }

    function StepFor(d: Device, scope: set<Device>): (steps: seq<ShutdownStep>)
      ensures |steps| <= 1 && forall step | step in steps :: step == DeviceStep(d)
    {
      if d in scope then [DeviceStep(d)] else []
    }

    function DefaultSteps(scope: set<Device>): (steps: seq<ShutdownStep>)
      ensures DistinctDevices(steps)
    {
      StepFor(Keithley, scope) + StepFor(Rigol, scope) + StepFor(Anritsu, scope) + [FlushCheckpoint]
    }

    /** The listed steps, then every device in scope that they left out. */
    method ShutDownAll(steps: seq<ShutdownStep>, scope: set<Device>, held: set<Endpoint>, ghost share: Share)
      returns (confirmed: bool)
      requires forall x | x in scope :: x.Keithley? || x.Rigol? || x.Anritsu? || x.Moke?
      requires forall e | e in held :: Retainable(e)
      requires OwnedOutputs() <= outputStatus.Keys
      requires ShareKept(share, scope, {}) && (share.fair ==> DistinctDevices(steps) && forall d | d in scope :: IsPresent(d))
      modifies this`now, this`stopRequested, this`watchdogTimedOut, this`archive, this`energized, this`outputStatus,
               this`mokeOwnedChannels, this`mokeStops, this`mokeDriven, this`shutdownDeadline, this`spent,
               this`offers, this`tried, this`flushFailures
      ensures old(now) <= now && (old(stopRequested) ==> stopRequested)
      ensures QuietlyExtends(old(archive), archive)
      ensures StepKeeps({}, dryRun, true, old(outputStatus), old(energized), outputStatus, energized)
      ensures confirmed ==> forall d | d in scope :: Settled(d, OwnedOutputs(), held, outputStatus, energized)
      ensures confirmed ==> flushFailures == old(flushFailures)
      ensures forall d | d in scope && IsPresent(d) :: TriedSince(old(tried), tried, d)
      ensures ShareKept(share, scope, scope)
      ensures TurnsKept(scope, held, confirmed, old(MokeNow()), MokeNow())
      ensures confirmed ==> forall d | d in scope :: IsPresent(d)
      ensures Reserve() <= old(Reserve())
    {
      hide TurnsKept;
      var attempted: set<Device>;
      confirmed, attempted := RunListedSteps(steps, scope, held, share);
      ghost var logged, status0, energized0, tried0 := archive, outputStatus, energized, tried;
      ghost var books0 := MokeNow();
      var rest := RunFallback(scope, attempted, held, share);
      QuietlyExtendsTransitive(old(archive), logged, archive);
      StepKeepsTransitive(dryRun, old(outputStatus), old(energized), status0, energized0, outputStatus, energized);
      TurnsKeptTransitive(scope, held, confirmed, rest, old(MokeNow()), books0, MokeNow());
      confirmed := confirmed && rest;
      EveryoneTried(scope, attempted, old(tried), tried0, tried);
    }

    /** The whole scope, sharing what is left of the budget. */
    method ShutDownFairly(scope: set<Device>, held: set<Endpoint>) returns (confirmed: bool)
      requires forall x | x in scope :: x.Keithley? || x.Rigol? || x.Anritsu? || x.Moke?
      requires forall e | e in held :: Retainable(e)
      requires OwnedOutputs() <= outputStatus.Keys
      modifies this`now, this`stopRequested, this`watchdogTimedOut, this`archive, this`energized, this`outputStatus,
               this`mokeOwnedChannels, this`mokeStops, this`mokeDriven, this`shutdownDeadline, this`spent,
               this`offers, this`tried, this`flushFailures
      ensures old(now) <= now && (old(stopRequested) ==> stopRequested)
      ensures QuietlyExtends(old(archive), archive)
      ensures StepKeeps({}, dryRun, true, old(outputStatus), old(energized), outputStatus, energized)
      ensures confirmed ==> forall d | d in scope :: Settled(d, OwnedOutputs(), held, outputStatus, energized)
      ensures confirmed ==> flushFailures == old(flushFailures)
      ensures forall d | d in scope && IsPresent(d) :: TriedSince(old(tried), tried, d)
      ensures scope != {} && old(ShareAtStart(scope).fair) ==>
        FairlyShared(old(LeftNow()), scope, Lost() - old(Lost()), old(offers), offers)
      ensures TurnsKept(scope, held, confirmed, old(MokeNow()), MokeNow())
      ensures confirmed ==> forall d | d in scope :: IsPresent(d)
      ensures Reserve() <= old(Reserve())
    {
      hide TurnsKept;
      var steps := if safeShutdownActions != [] then safeShutdownActions else DefaultSteps(scope);
      ghost var share := ShareAtStart(scope);
      ShareStarts(scope);
      confirmed := ShutDownAll(steps, scope, held, share);
      ShareEnds(share, scope);
    }

    /** The shutdown itself: the instruments in charge, and no other. */
    method ShutdownInScope(held: set<Endpoint>, success: bool) returns (confirmed: bool)
      requires forall e | e in held :: Retainable(e)
      requires OwnedOutputs() <= outputStatus.Keys
      modifies this`now, this`stopRequested, this`watchdogTimedOut, this`archive, this`energized, this`outputStatus,
               this`mokeOwnedChannels, this`mokeStops, this`mokeDriven, this`shutdownDeadline, this`spent,
               this`offers, this`tried, this`flushFailures
      ensures old(now) <= now && (old(stopRequested) ==> stopRequested)
      ensures QuietlyExtends(old(archive), archive)
      ensures StepKeeps({}, dryRun, true, old(outputStatus), old(energized), outputStatus, energized)
      ensures forall d | d in ShutdownScope(success) && IsPresent(d) :: TriedSince(old(tried), tried, d)
      ensures confirmed ==> OutputsSettled(OwnedOutputs(), held, outputStatus, energized)
      ensures confirmed ==> flushFailures == old(flushFailures)
      ensures ShutdownScope(success) != {} && DistinctDevices(safeShutdownActions) && old(LeftNow()) >= 0.0 &&
              (forall d | d in ShutdownScope(success) :: IsPresent(d)) ==>
        FairlyShared(old(LeftNow()), ShutdownScope(success), Lost() - old(Lost()), old(offers), offers)
      ensures forall d | d in requiredDevices && (d.Keithley? || d.Rigol? || (d.Anritsu? && (anritsuOwnsOutput || !success))) ::
                TriedSince(old(tried), tried, d)
      ensures mokeOwnsOutput && mokeAvailable ==> TriedSince(old(tried), tried, Moke)
      ensures forall i | |old(tried)| <= i < |tried| :: InCharge(tried[i].device, success)
      ensures mokeOwnsOutput && MokeOffered(old(tried), tried) ==>
        forall c | c in old(mokeOwnedChannels) && MokeVout(c) !in held :: StopTried(old(mokeStops), mokeStops, c)
      ensures confirmed && mokeOwnsOutput ==> mokeAvailable
      ensures confirmed && mokeOwnsOutput ==>
        forall c | c in old(mokeOwnedChannels) && MokeVout(c) !in held :: ZeroConfirmed(old(mokeStops), mokeStops, c) && c !in mokeDriven
      ensures mokeDriven <= old(mokeDriven) && old(mokeOwnedChannels) <= mokeOwnedChannels
      ensures Reserve() <= old(Reserve())
    {
      hide ShutdownScope, OwnedOutputs, StepKeeps, QuietlyExtends, Settled, OutputsSettled, FairlyShared, TriedSince,
           DistinctDevices,
           TurnsKept, StopTried, ZeroConfirmed, MokeOffered;
      var scope := ShutdownScope(success);
      ScopeMeans(success);
      confirmed := ShutDownFairly(scope, held);
      MokeShutDown(scope, held, confirmed, old(MokeNow()), MokeNow());
      assert mokeOwnsOutput ==> Moke in scope;
      if confirmed {
        AllSettled(scope, success, held);
      }
    }

    /**
     Brings every owned output to its final state. It never raises: whatever one device does, the others are tried,
     also when the list leaves them out. It answers true only when every device confirmed and the flush did not fail;
     then the owned outputs are on exactly when they are held.
     */
    method SafeShutdown(held: set<Endpoint>, success: bool) returns (confirmed: bool)
      requires forall e | e in held :: Retainable(e)
      requires OwnedOutputs() <= outputStatus.Keys
      modifies this`now, this`stopRequested, this`watchdogTimedOut, this`archive, this`energized, this`outputStatus,
               this`mokeOwnedChannels, this`mokeStops, this`mokeDriven, this`shutdownDeadline, this`spent,
               this`offers, this`tried, this`flushFailures,
               this`state, this`shutdowns, this`shutdownBooks
      ensures old(now) <= now && (old(stopRequested) ==> stopRequested)
      ensures QuietlyExtends(old(archive), archive)
      ensures StepKeeps({}, dryRun, true, old(outputStatus), old(energized), outputStatus, energized)
      ensures state == Stopping
      ensures shutdowns == old(shutdowns) + [Shutdown(held, |dispatches|)]
      ensures forall d | d in ShutdownScope(success) && IsPresent(d) :: TriedSince(old(tried), tried, d)
      ensures confirmed ==> OutputsSettled(OwnedOutputs(), held, outputStatus, energized)
      ensures confirmed ==> flushFailures == old(flushFailures)
      ensures ShutdownScope(success) != {} && DistinctDevices(safeShutdownActions) && old(LeftNow()) >= 0.0 &&
              (forall d | d in ShutdownScope(success) :: IsPresent(d)) ==>
        FairlyShared(old(LeftNow()), ShutdownScope(success), Lost() - old(Lost()), old(offers), offers)
      ensures forall d | d in requiredDevices && (d.Keithley? || d.Rigol? || (d.Anritsu? && (anritsuOwnsOutput || !success))) ::
                TriedSince(old(tried), tried, d)
      ensures mokeOwnsOutput && mokeAvailable ==> TriedSince(old(tried), tried, Moke)
      ensures forall i | |old(tried)| <= i < |tried| :: InCharge(tried[i].device, success)
      ensures mokeOwnsOutput && MokeOffered(old(tried), tried) ==>
        forall c | c in old(mokeOwnedChannels) && MokeVout(c) !in held :: StopTried(old(mokeStops), mokeStops, c)
      ensures confirmed && mokeOwnsOutput ==> mokeAvailable
      ensures confirmed && mokeOwnsOutput ==>
        forall c | c in old(mokeOwnedChannels) && MokeVout(c) !in held :: ZeroConfirmed(old(mokeStops), mokeStops, c) && c !in mokeDriven
      ensures mokeDriven <= old(mokeDriven) && old(mokeOwnedChannels) <= mokeOwnedChannels
      ensures shutdownBooks == old(MokeNow())
      ensures Reserve() <= old(Reserve())
    {
      hide ShutdownScope, OwnedOutputs, StepKeeps, QuietlyExtends, Settled, OutputsSettled, FairlyShared, TriedSince,
           DistinctDevices,
           TurnsKept, StopTried, ZeroConfirmed, MokeOffered, InCharge;
      state := Stopping;
      shutdownBooks := MokeNow();
      shutdowns := shutdowns + [Shutdown(held, |dispatches|)];
      confirmed := ShutdownInScope(held, success);
    }

    /** The instruments that a shutdown may touch. */
    predicate InCharge(d: Device, success: bool)
      reads this`requiredDevices, this`anritsuOwnsOutput, this`mokeOwnsOutput
    {
      if d.Moke? then mokeOwnsOutput
      else d in requiredDevices && (d.Keithley? || d.Rigol? || (d.Anritsu? && (anritsuOwnsOutput || !success)))
    }

    lemma ScopeMeans(success: bool)
      ensures forall d: Device :: d in ShutdownScope(success) <==> InCharge(d, success)
    {
    }

    lemma MokeShutDown(scope: set<Device>, held: set<Endpoint>, confirmed: bool, b: MokeBooks, a: MokeBooks)
      requires TurnsKept(scope, held, confirmed, b, a)
      ensures forall i | |b.turns| <= i < |a.turns| :: a.turns[i].device in scope
      ensures MokeOffered(b.turns, a.turns) ==> forall c | c in b.channels && MokeVout(c) !in held :: StopTried(b.stops, a.stops, c)
      ensures confirmed && TriedSince(b.turns, a.turns, Moke) ==>
                forall c | c in b.channels && MokeVout(c) !in held :: ZeroConfirmed(b.stops, a.stops, c) && c !in a.driven
      ensures a.driven <= b.driven && b.channels <= a.channels
    {
      if confirmed && TriedSince(b.turns, a.turns, Moke) {
        ZeroedIfOwned(scope, held, b, a);
      }
    }

    ghost function ShareAtStart(scope: set<Device>): Share
      reads this`now, this`spent, this`shutdownDeadline, this`offers, this`safeShutdownActions
    {
      Share(LeftNow(), Lost(), offers,
            scope != {} && DistinctDevices(safeShutdownActions) && LeftNow() >= 0.0 && forall d | d in scope :: IsPresent(d))
    }

    lemma ShareStarts(scope: set<Device>)
      ensures ShareKept(ShareAtStart(scope), scope, {})
    {
      if scope != {} {
        SharingStart(LeftNow(), |scope|, offers);
        assert scope - {} == scope;
      }
    }

    lemma AllSettled(scope: set<Device>, success: bool, held: set<Endpoint>)
      requires scope == ShutdownScope(success)
      requires forall d | d in scope :: Settled(d, OwnedOutputs(), held, outputStatus, energized)
      ensures OutputsSettled(OwnedOutputs(), held, outputStatus, energized)
    {
      OwnersInScope(scope, success);
    }

    lemma ShareEnds(share: Share, scope: set<Device>)
      requires ShareKept(share, scope, scope)
      ensures share.fair && scope != {} ==> FairlyShared(share.whole, scope, Lost() - share.lost, share.offers, offers)
    {
    }

    lemma EveryoneTried(scope: set<Device>, listed: set<Device>, start: seq<Turn>, before: seq<Turn>, after: seq<Turn>)
      requires |start| <= |before| <= |after| && after[..|before|] == before
      requires forall d | d in listed :: TriedSince(start, before, d)
      requires PresentOnes(scope, listed, before, after)
      ensures forall d | d in scope && IsPresent(d) :: TriedSince(start, after, d)
    {
      forall d | d in scope && IsPresent(d) ensures TriedSince(start, after, d) {
        if d in listed {
          var i :| |start| <= i < |before| && before[i].device == d && before[i].Served();
          assert after[i] == before[i];
        }
      }
    }

    lemma OwnersInScope(scope: set<Device>, success: bool)
      requires scope == ShutdownScope(success)
      ensures forall e | e in OwnedOutputs() :: e.Owner() in scope
    {
    }

    // ---- Clean-up after a fault or a stop ----

    ghost predicate HalvedKept(whole: real, lost: real, k: nat)
      reads this`now, this`spent, this`shutdownDeadline
    {
      lost <= Lost() && (0.0 <= whole ==> Halved(whole, Lost() - lost, k, LeftNow()))
    }

    lemma HalvedKeptAtStart()
      ensures HalvedKept(LeftNow(), Lost(), 0)
    {
    }

    /** One clean-up action, whatever it raises. */
    method CleanUpOne(a: PlanAction, ghost i: nat, ghost whole: real, ghost lost: real, ghost k: nat) returns (ok: bool)
      requires CompiledAction(a) && a.isFinally && !a.completionOnly && HalvedKept(whole, lost, k)
      modifies this`now, this`stopRequested, this`watchdogTimedOut, this`archive, this`energized, this`outputActive,
               this`outputStatus, this`compliance, this`mokePlan, this`mokeOwnsOutput, this`mokeOwnedChannels,
               this`mokeStops, this`mokeDriven,
               this`referenceReady, this`dispatches, this`rawSweeps, this`shutdownDeadline, this`spent
      ensures old(now) <= now && (old(stopRequested) ==> stopRequested)
      ensures QuietlyExtends(old(archive), archive)
      ensures StepKeeps({}, dryRun, true, old(outputStatus), old(energized), outputStatus, energized)
      ensures OneDispatch(old(dispatches), dispatches, FromCleanup(i), stopRequested)
      ensures rawSweeps == old(rawSweeps)
      ensures mokeOwnsOutput && !old(mokeOwnsOutput) ==> mokeAvailable && !dryRun
      ensures old(mokeOwnsOutput) ==> mokeOwnsOutput
      ensures old(MokeTracked()) ==> MokeTracked()
      ensures HalvedKept(whole, lost, k + 1)
      ensures Reserve() <= old(Reserve())
      ensures dispatches == old(dispatches) ==> LeftNow() <= 0.0
      ensures LeftNow() <= old(LeftNow())
    {
      CleanupNeverEnergizes(a);
      EmitAfterFault("safe_finally_started");
      ghost var logged, left0, lost0, spent0 := archive, LeftNow(), Lost(), spent;
      var o, acquired := Execute(a, FromCleanup(i));
      QuietlyExtendsTransitive(old(archive), logged, archive);
      if 0.0 <= whole {
        HalvedStep(whole, lost0 - lost, Lost() - lost0, spent - spent0, k, left0);
      }
      ok := o.Done?;
      logged := archive;
      EmitAfterFault(if ok then "safe_finally_finished" else "safe_finally_error");
      QuietlyExtendsTransitive(old(archive), logged, archive);
    }

    /** Starts every `finally` action that was not started yet, each node once, in plan order. */
    method RunPendingFinally(plan: ExecutionPlan, attempted: set<string>) returns (ok: bool)
      requires Compiled(plan)
      modifies this`now, this`stopRequested, this`watchdogTimedOut, this`archive, this`energized, this`outputActive,
               this`outputStatus, this`compliance, this`mokePlan, this`mokeOwnsOutput, this`mokeOwnedChannels,
               this`mokeStops, this`mokeDriven,
               this`referenceReady, this`dispatches, this`rawSweeps, this`shutdownDeadline, this`spent,
               this`cleanupStarts
      ensures old(now) <= now && (old(stopRequested) ==> stopRequested)
      ensures QuietlyExtends(old(archive), archive)
      ensures StepKeeps({}, dryRun, true, old(outputStatus), old(energized), outputStatus, energized)
      ensures cleanupStarts == old(cleanupStarts) + Pending(plan.actions, attempted, 0)
      ensures CleanedUp(old(dispatches), dispatches, Pending(plan.actions, attempted, 0))
      ensures rawSweeps == old(rawSweeps)
      ensures mokeOwnsOutput && !old(mokeOwnsOutput) ==> mokeAvailable && !dryRun
      ensures old(mokeOwnsOutput) ==> mokeOwnsOutput
      ensures old(MokeTracked()) ==> MokeTracked()
      ensures HalvedKept(old(LeftNow()), old(Lost()), |Pending(plan.actions, attempted, 0)|)
      ensures Reserve() <= old(Reserve())
      ensures LeftNow() > 0.0 ==> AllCleanedUp(old(dispatches), dispatches, Pending(plan.actions, attempted, 0))
    {
      hide StepKeeps, QuietlyExtends, HalvedKept, Pending, CleanedUp, OneDispatch, CleanupAt, MokeTracked;
      QuietlyExtendsSelf(archive);
      StepKeepsSelf(dryRun, outputStatus, energized);
      NothingCleanedUp(dispatches);
      HalvedKeptAtStart();
      CleanupAtStart(plan.actions, attempted);
      ok := true;
      var marked := attempted;
      ghost var started: seq<nat>, whole, lost := [], LeftNow(), Lost();
      for i := 0 to |plan.actions|
        invariant Reserve() <= old(Reserve())
        invariant old(now) <= now && (old(stopRequested) ==> stopRequested)
        invariant QuietlyExtends(old(archive), archive)
        invariant StepKeeps({}, dryRun, true, old(outputStatus), old(energized), outputStatus, energized)
        invariant CleanupAt(plan.actions, attempted, i, marked, started)
        invariant cleanupStarts == old(cleanupStarts) + started
        invariant CleanedUp(old(dispatches), dispatches, started)
        invariant LeftNow() > 0.0 ==> AllCleanedUp(old(dispatches), dispatches, started)
        invariant rawSweeps == old(rawSweeps)
        invariant mokeOwnsOutput && !old(mokeOwnsOutput) ==> mokeAvailable && !dryRun
        invariant old(mokeOwnsOutput) ==> mokeOwnsOutput
        invariant old(MokeTracked()) ==> MokeTracked()
        invariant HalvedKept(whole, lost, |started|)
      {
        var a := plan.actions[i];
        assert a in plan.actions;
        CleanupAtStep(plan.actions, attempted, i, marked, started);
        if AwaitsCleanup(a, marked) {
          ghost var logged, status0, energized0, handed := archive, outputStatus, energized, dispatches;
          marked := marked + {a.nodeId};
          cleanupStarts := cleanupStarts + [i];
          var done := CleanUpOne(a, i, whole, lost, |started|);
          QuietlyExtendsTransitive(old(archive), logged, archive);
          StepKeepsTransitive(dryRun, old(outputStatus), old(energized), status0, energized0, outputStatus, energized);
          CleanedUpOneMore(old(dispatches), handed, dispatches, started, i, stopRequested);
          started := started + [i];
          ok := ok && done;
        }
      }
      CleanupAtEnd(plan.actions, attempted, marked, started);
    }

    // ---- The measurement ----

    method AppendCheckpoint() returns (o: Outcome)
      modifies this`now, this`stopRequested, this`watchdogTimedOut, this`archive
      ensures old(now) <= now && (old(stopRequested) ==> stopRequested)
      ensures archive == old(archive) || archive == old(archive) + [PointStored]
      ensures o.Done? ==> archive == old(archive) + [PointStored]
    {
      o := Query();
      var written: bool := *;
      if o.Done? || written {
        archive := archive + [PointStored];
      }
    }

    /** Stores one point; the count follows once the writer has returned. */
    method StorePoint(ghost plan: ExecutionPlan, ghost inStep: bool, ghost start: nat, stored: nat) returns (o: Outcome, stored1: nat)
      requires OnRecord(plan, inStep, start, stored, lastBoundaryPoints, archive)
      modifies this`now, this`stopRequested, this`watchdogTimedOut, this`archive, this`compliance
      ensures old(now) <= now && (old(stopRequested) ==> stopRequested)
      ensures o.Done? ==> stored1 == stored + 1 && OnRecord(plan, inStep, start, stored1, lastBoundaryPoints, archive)
      ensures LeftOnRecord(plan, inStep, start, stored1, archive)
    {
      hide OnRecord, LeftOnRecord, QuietlyExtends;
      stored1 := stored;
      QuietlyExtendsSelf(archive);
      OnRecordPoint(plan, inStep, start, stored, lastBoundaryPoints, archive);
      OnRecordQuietly(plan, inStep, start, stored, lastBoundaryPoints, archive, archive);
      o := AppendCheckpoint();
      if o.Raised? {
        return;
      }
      stored1 := stored + 1;
      ghost var logged := archive;
      o := Emit(OtherEvent("point_stored"));
      OnRecordQuietly(plan, inStep, start, stored1, lastBoundaryPoints, logged, archive);
      compliance := {};
    }

    method PauseAtPointIfRequested() returns (o: Outcome)
      modifies this`now, this`stopRequested, this`watchdogTimedOut, this`archive, this`state
      ensures old(now) <= now && (old(stopRequested) ==> stopRequested)
      ensures QuietlyExtends(old(archive), archive)
    {
      var pause: bool := *;
      if pause {
        :- Emit(OtherEvent("pause_pending"));
        state := Paused;
        Environment();
        :- RaiseIfStopRequested();
        state := Running;
      }
      return Done;
    }

    /** The operator confirms each stage of a manual run; clean-up never waits for a click. */
    method WaitForManualStep() returns (o: Outcome)
      modifies this`now, this`stopRequested, this`watchdogTimedOut, this`archive, this`state
      ensures old(now) <= now && (old(stopRequested) ==> stopRequested)
      ensures QuietlyExtends(old(archive), archive)
    {
      state := Paused;
      :- Emit(OtherEvent("manual_stage_waiting"));
      Environment();
      :- RaiseIfStopRequested();
      state := Running;
      ghost var logged := archive;
      o := Emit(OtherEvent("manual_stage_confirmed"));
      QuietlyExtendsTransitive(old(archive), logged, archive);
    }

    method AnnounceAction(a: PlanAction) returns (o: Outcome)
      modifies this`now, this`stopRequested, this`watchdogTimedOut, this`archive, this`state
      ensures old(now) <= now && (old(stopRequested) ==> stopRequested)
      ensures QuietlyExtends(old(archive), archive)
    {
      if manualStep && !a.isFinally {
        :- WaitForManualStep();
      }
      ghost var logged := archive;
      o := Emit(OtherEvent("action_started"));
      QuietlyExtendsTransitive(old(archive), logged, archive);
    }

    /** The test the runner makes before it stores a point; it takes any true value of the flag. */
    function StoresPoint(k: Kind, acquired: bool): bool {
      acquired || k.Checkpoint? || ((k.MeasureMokeHall? || k.MeasureLakeshoreField?) && IsTrue(k.checkpoint))
    }

    function IsTrue(flag: CheckpointFlag): bool {
      match flag
      case Absent => true
      case Exactly(b) => b
      case Other(truthy) => truthy
    }

    /** It agrees with the count made at compilation, except on a true value that is not the boolean. */
    lemma StoresWhatIsCounted(a: PlanAction)
      ensures (StoresPoint(a.kind, a.kind.AcquireSpectrum?) <==> ProducesCheckpoint(a)) <==>
              !((a.kind.MeasureMokeHall? || a.kind.MeasureLakeshoreField?) && a.kind.checkpoint == Other(true))
    {
    }

    /** Every output that the plan controls is confirmed off. */
    predicate SafeToResume()
      reads this`outputActive, this`resumeOutputScope, this`outputStatus
    {
      outputActive == {} && forall e | e in resumeOutputScope :: e in outputStatus && outputStatus[e] == Off
    }

    /**
     A safe resume boundary: recorded only when points were added since the last one and every output that the plan
     controls is confirmed off.
     */
    method RecordSafeBoundaryIfAdvanced(plan: ExecutionPlan, ghost inStep: bool, ghost start: nat, stored: nat, completed: nat)
      returns (o: Outcome)
      requires resumeOutputScope == ControlledOutputEndpoints(plan.actions)
      requires OnRecord(plan, inStep, start, stored, lastBoundaryPoints, archive)
      requires completed <= |plan.actions| && (inStep ==> Checkpoints(plan.actions[..completed]) == stored)
      requires Truthful(outputStatus, energized) && FieldUnproven(outputStatus)
      modifies this`now, this`stopRequested, this`watchdogTimedOut, this`archive, this`lastBoundaryPoints
      ensures old(now) <= now && (old(stopRequested) ==> stopRequested)
      ensures o.Done? ==> OnRecord(plan, inStep, start, stored, lastBoundaryPoints, archive)
      ensures LeftOnRecord(plan, inStep, start, stored, archive)
      ensures archive != old(archive) ==> SafeToResume() && resumeOutputScope !! energized && old(lastBoundaryPoints) < stored
      ensures o.Done? && stored > old(lastBoundaryPoints) && SafeToResume() ==>
        lastBoundaryPoints == stored && archive != old(archive)
      ensures archive == old(archive) || archive == old(archive) + [EventStored(SafeResumeBoundary(Fields(BoundaryFields(
                stored, completed, plan.hash, Some(resumeOutputScope), Some(outputStatus), true, true))))]
      ensures o.Done? ==> lastBoundaryPoints >= stored || !SafeToResume()
    {
      if stored <= lastBoundaryPoints || outputActive != {} || exists e | e in resumeOutputScope :: e !in outputStatus || outputStatus[e] != Off {
        return Done;
      }
      var f := BoundaryFields(stored, completed, plan.hash, Some(resumeOutputScope), Some(outputStatus), true, true);
      OnRecordBoundary(plan, inStep, start, stored, lastBoundaryPoints, archive, f);
      o := Emit(SafeResumeBoundary(Fields(f)));
      if o.Done? {
        lastBoundaryPoints := stored;
      }
    }

    /** Stores what an executed action has measured. A source in compliance gets its point stored, and then ends the run. */
    method StoreResult(k: Kind, acquired: bool, ghost plan: ExecutionPlan, ghost inStep: bool, ghost start: nat, stored: nat)
      returns (o: Outcome, stored1: nat)
      requires OnRecord(plan, inStep, start, stored, lastBoundaryPoints, archive)
      modifies this`now, this`stopRequested, this`watchdogTimedOut, this`archive, this`compliance, this`state
      ensures old(now) <= now && (old(stopRequested) ==> stopRequested)
      ensures old(compliance) != {} ==> o.Raised?
      ensures o.Done? ==> stored1 == stored + if StoresPoint(k, acquired) then 1 else 0
      ensures o.Done? ==> OnRecord(plan, inStep, start, stored1, lastBoundaryPoints, archive)
      ensures LeftOnRecord(plan, inStep, start, stored1, archive)
    {
      stored1 := stored;
      if compliance != {} {
        o, stored1 := StorePoint(plan, inStep, start, stored);
        if o.Raised? {
          return;
        }
        ghost var logged := archive;
        var reported := Emit(OtherEvent("compliance_detected"));
        LeftOnRecordQuietly(plan, inStep, start, stored1, logged, archive);
        o := Raised(ExecutionError);
      } else if StoresPoint(k, acquired) {
        o, stored1 := StorePoint(plan, inStep, start, stored);
        if o.Raised? {
          return;
        }
        ghost var logged := archive;
        o := PauseAtPointIfRequested();
        OnRecordQuietly(plan, inStep, start, stored1, lastBoundaryPoints, logged, archive);
      } else {
        o := Done;
      }
    }

    method FinishAction(plan: ExecutionPlan, ghost inStep: bool, ghost start: nat, stored: nat, completed: nat) returns (o: Outcome)
      requires resumeOutputScope == ControlledOutputEndpoints(plan.actions)
      requires OnRecord(plan, inStep, start, stored, lastBoundaryPoints, archive)
      requires completed <= |plan.actions| && (inStep ==> Checkpoints(plan.actions[..completed]) == stored)
      requires Truthful(outputStatus, energized) && FieldUnproven(outputStatus)
      modifies this`now, this`stopRequested, this`watchdogTimedOut, this`archive, this`lastBoundaryPoints
      ensures old(now) <= now && (old(stopRequested) ==> stopRequested)
      ensures o.Done? ==> OnRecord(plan, inStep, start, stored, lastBoundaryPoints, archive)
      ensures LeftOnRecord(plan, inStep, start, stored, archive)
      ensures o.Done? ==> lastBoundaryPoints >= stored || !SafeToResume()
    {
      o := Emit(OtherEvent("action_finished"));
      OnRecordQuietly(plan, inStep, start, stored, lastBoundaryPoints, old(archive), archive);
      if o.Done? {
        o := RecordSafeBoundaryIfAdvanced(plan, inStep, start, stored, completed);
      }
    }

    /** Announces one action of the plan and executes it under the policy. */
    method PerformAction(a: PlanAction, ghost i: nat) returns (o: Outcome, acquired: bool)
      requires CompiledAction(a) && policy.Accepted() && AfterStop(dispatches) == 0
      modifies this`now, this`stopRequested, this`watchdogTimedOut, this`archive, this`energized, this`outputActive,
               this`outputStatus, this`compliance, this`mokePlan, this`mokeOwnsOutput, this`mokeOwnedChannels,
               this`mokeStops, this`mokeDriven,
               this`referenceReady, this`dispatches, this`rawSweeps, this`shutdownDeadline, this`spent, this`times,
               this`state
      ensures old(now) <= now && (old(stopRequested) ==> stopRequested)
      ensures QuietlyExtends(old(archive), archive)
      ensures StepKeeps(TurnsOn(a.kind), dryRun, o.Done?, old(outputStatus), old(energized), outputStatus, energized)
      ensures WithinPolicy(policy, a, FromLoop(i), old(Books()), Books())
      ensures AfterStop(dispatches) <= 1 && (!stopRequested ==> AfterStop(dispatches) == 0)
      ensures mokeOwnsOutput && !old(mokeOwnsOutput) ==> mokeAvailable && !dryRun
      ensures old(mokeOwnsOutput) ==> mokeOwnsOutput
      ensures old(MokeTracked()) ==> MokeTracked()
      ensures o.Done? ==> (acquired <==> a.kind.AcquireSpectrum? && compliance == {})
      ensures o.Done? ==> MokePermits(a.kind, old(mokePlan)) && mokePlan == MokePlanAfter(a.kind, old(mokePlan))
      ensures Reserve() <= old(Reserve())
      ensures o.Done? ==> HandedOver(old(dispatches), dispatches, FromLoop(i))
    {
      acquired := false;
      NothingDone(policy, a, FromLoop(i), Books());
      o := AnnounceAction(a);
      if o.Done? {
        ghost var logged := archive;
        o, acquired := ExecuteWithPolicy(a, FromLoop(i));
        QuietlyExtendsTransitive(old(archive), logged, archive);
      }
    }

    /** After action i was executed: its point, the end of the action, and the boundary. */
    method CountResult(plan: ExecutionPlan, i: nat, acquired: bool, stored: nat, ghost inStep: bool, ghost start: nat)
      returns (o: Outcome, stored1: nat)
      requires i < |plan.actions| && CompiledAction(plan.actions[i])
      requires resumeOutputScope == ControlledOutputEndpoints(plan.actions)
      requires OnRecord(plan, inStep, start, stored, lastBoundaryPoints, archive)
      requires inStep ==> Checkpoints(plan.actions[..i]) == stored
      requires Truthful(outputStatus, energized) && FieldUnproven(outputStatus)
      requires acquired <==> plan.actions[i].kind.AcquireSpectrum? && compliance == {}
      modifies this`now, this`stopRequested, this`watchdogTimedOut, this`archive, this`compliance, this`state,
               this`lastBoundaryPoints
      ensures old(now) <= now && (old(stopRequested) ==> stopRequested)
      ensures LeftOnRecord(plan, inStep, start, stored1, archive)
      ensures o.Done? ==> stored1 == stored + if ProducesCheckpoint(plan.actions[i]) then 1 else 0
      ensures o.Done? ==> OnRecord(plan, inStep, start, stored1, lastBoundaryPoints, archive)
      ensures o.Done? ==> lastBoundaryPoints >= stored1 || !SafeToResume()
    {
      hide QuietlyExtends, OnRecord, LeftOnRecord, ControlledOutputEndpoints, Truthful, FieldUnproven;
      var a := plan.actions[i];
      StoresWhatIsCounted(a);
      o, stored1 := StoreResult(a.kind, acquired, plan, inStep, start, stored);
      if o.Raised? {
        return;
      }
      CheckpointsStep(plan.actions, i);
      o := FinishAction(plan, inStep, start, stored1, i + 1);
    }

    /** One action of the plan: executed, its point stored and counted, a boundary recorded if that is safe. */
    method RunAction(plan: ExecutionPlan, i: nat, completed0: nat, stored: nat, ghost inStep: bool, ghost start: nat)
      returns (o: Outcome, completed: nat, stored1: nat)
      requires Compiled(plan) && i < |plan.actions| && policy.Accepted() && AfterStop(dispatches) == 0
      requires resumeOutputScope == ControlledOutputEndpoints(plan.actions)
      requires OnRecord(plan, inStep, start, stored, lastBoundaryPoints, archive)
      requires inStep ==> Checkpoints(plan.actions[..i]) == stored
      requires Truthful(outputStatus, energized) && FieldUnproven(outputStatus)
      modifies this`now, this`stopRequested, this`watchdogTimedOut, this`archive, this`energized, this`outputActive,
               this`outputStatus, this`compliance, this`mokePlan, this`mokeOwnsOutput, this`mokeOwnedChannels,
               this`mokeStops, this`mokeDriven,
               this`referenceReady, this`dispatches, this`rawSweeps, this`shutdownDeadline, this`spent, this`times,
               this`state, this`lastBoundaryPoints
      ensures old(now) <= now && (old(stopRequested) ==> stopRequested)
      ensures WithinPolicy(policy, plan.actions[i], FromLoop(i), old(Books()), Books())
      ensures AfterStop(dispatches) <= 1 && (!stopRequested ==> AfterStop(dispatches) == 0)
      ensures FieldUnproven(outputStatus) && old(outputStatus).Keys <= outputStatus.Keys
      ensures forall e | e in energized && e !in old(energized) :: !dryRun && e in TurnsOn(plan.actions[i].kind)
      ensures mokeOwnsOutput && !old(mokeOwnsOutput) ==> mokeAvailable && !dryRun
      ensures old(mokeOwnsOutput) ==> mokeOwnsOutput
      ensures old(MokeTracked()) ==> MokeTracked()
      ensures completed == completed0 || completed == i + 1
      ensures LeftOnRecord(plan, inStep, start, stored1, archive)
      ensures o.Done? ==> completed == i + 1 && stored1 == stored + if ProducesCheckpoint(plan.actions[i]) then 1 else 0
      ensures o.Done? ==> OnRecord(plan, inStep, start, stored1, lastBoundaryPoints, archive)
      ensures o.Done? ==> Truthful(outputStatus, energized)
      ensures o.Done? ==> MokePermits(plan.actions[i].kind, old(mokePlan))
      ensures o.Done? ==> mokePlan == MokePlanAfter(plan.actions[i].kind, old(mokePlan))
      ensures Reserve() <= old(Reserve())
      ensures o.Done? ==> HandedOver(old(dispatches), dispatches, FromLoop(i))
      ensures o.Done? ==> lastBoundaryPoints >= stored1 || !SafeToResume()
    {
      hide QuietlyExtends, OnRecord, LeftOnRecord, ControlledOutputEndpoints, WithinPolicy, Truthful, FieldUnproven,
           MokeTracked;
      var a := plan.actions[i];
      assert a in plan.actions;
      completed, stored1 := completed0, stored;
      var acquired: bool;
      o, acquired := PerformAction(a, i);
      OnRecordQuietly(plan, inStep, start, stored, lastBoundaryPoints, old(archive), archive);
      if o.Raised? {
        return;
      }
      completed := i + 1;
      o, stored1 := CountResult(plan, i, acquired, stored, inStep, start);
    }

    /** One position of the plan: executed, or skipped when it is meant for failures only. */
    method RunOrSkip(plan: ExecutionPlan, i: nat, completed0: nat, stored: nat, ghost inStep: bool, ghost start: nat)
      returns (o: Outcome, completed: nat, stored1: nat)
      requires Compiled(plan) && i < |plan.actions| && policy.Accepted() && AfterStop(dispatches) == 0
      requires resumeOutputScope == ControlledOutputEndpoints(plan.actions)
      requires OnRecord(plan, inStep, start, stored, lastBoundaryPoints, archive)
      requires inStep ==> Checkpoints(plan.actions[..i]) == stored
      requires Truthful(outputStatus, energized) && FieldUnproven(outputStatus)
      modifies this`now, this`stopRequested, this`watchdogTimedOut, this`archive, this`energized, this`outputActive,
               this`outputStatus, this`compliance, this`mokePlan, this`mokeOwnsOutput, this`mokeOwnedChannels,
               this`mokeStops, this`mokeDriven,
               this`referenceReady, this`dispatches, this`rawSweeps, this`shutdownDeadline, this`spent, this`times,
               this`state, this`lastBoundaryPoints, this`loopStarts
      ensures old(now) <= now && (old(stopRequested) ==> stopRequested)
      ensures WithinPolicy(policy, plan.actions[i], FromLoop(i), old(Books()), Books())
      ensures plan.actions[i].faultOnly ==> Books() == old(Books())
      ensures AfterStop(dispatches) <= 1 && (!stopRequested ==> AfterStop(dispatches) == 0)
      ensures FieldUnproven(outputStatus) && old(outputStatus).Keys <= outputStatus.Keys
      ensures forall e | e in energized && e !in old(energized) :: !dryRun && e in TurnsOn(plan.actions[i].kind)
      ensures mokeOwnsOutput && !old(mokeOwnsOutput) ==> mokeAvailable && !dryRun
      ensures old(mokeOwnsOutput) ==> mokeOwnsOutput
      ensures old(MokeTracked()) ==> MokeTracked()
      ensures completed == completed0 || completed == i + 1
      ensures loopStarts == old(loopStarts) + if plan.actions[i].isFinally && !plan.actions[i].faultOnly then [i] else []
      ensures LeftOnRecord(plan, inStep, start, stored1, archive)
      ensures o.Done? ==> completed == i + 1 && stored1 == stored + if ProducesCheckpoint(plan.actions[i]) then 1 else 0
      ensures o.Done? ==> OnRecord(plan, inStep, start, stored1, lastBoundaryPoints, archive)
      ensures o.Done? ==> Truthful(outputStatus, energized)
      ensures o.Done? ==> mokePlan == if plan.actions[i].faultOnly then old(mokePlan) else MokePlanAfter(plan.actions[i].kind, old(mokePlan))
      ensures Reserve() <= old(Reserve())
      ensures o.Done? ==> plan.actions[i].faultOnly || HandedOver(old(dispatches), dispatches, FromLoop(i))
    {
      hide Truthful, QuietlyExtends, OnRecord, LeftOnRecord, ControlledOutputEndpoints, MokeTracked;
      var a := plan.actions[i];
      assert a in plan.actions;
      if a.faultOnly {
        CleanupNeverEnergizes(a);
        NothingDone(policy, a, FromLoop(i), Books());
        completed, stored1 := i + 1, stored;
        o := Emit(OtherEvent("action_skipped"));
        OnRecordQuietly(plan, inStep, start, stored, lastBoundaryPoints, old(archive), archive);
      } else {
        if a.isFinally {
          loopStarts := loopStarts + [i];
        }
        o, completed, stored1 := RunAction(plan, i, completed0, stored, inStep, start);
      }
    }

    ghost function Records(): Tally
      reads this`dispatches, this`times, this`rawSweeps, this`stopRequested, this`loopStarts, this`archive, this`lastBoundaryPoints
    {
      Tally(Books(), stopRequested, loopStarts, archive, lastBoundaryPoints)
    }

    /** The next action of the measurement, unless Stop is set. */
    method NextAction(plan: ExecutionPlan, ghost b: Beginning, i: nat, stored: nat, attempted: set<string>, confirmed: set<Endpoint>)
      returns (o: Outcome, completed: nat, stored1: nat, attempted1: set<string>, confirmed1: set<Endpoint>)
      requires Compiled(plan) && b.plan == plan && i < |plan.actions| && policy.Accepted()
      requires resumeOutputScope == ControlledOutputEndpoints(plan.actions)
      requires b.inStep ==> b.start <= |plan.actions| && Checkpoints(plan.actions[..b.start]) == b.stored
      requires Measuring(policy, b, Records(), i, stored, attempted, confirmed)
      requires Truthful(outputStatus, energized) && FieldUnproven(outputStatus)
      modifies this`now, this`stopRequested, this`watchdogTimedOut, this`archive, this`energized, this`outputActive,
               this`outputStatus, this`compliance, this`mokePlan, this`mokeOwnsOutput, this`mokeOwnedChannels,
               this`mokeStops, this`mokeDriven,
               this`referenceReady, this`dispatches, this`rawSweeps, this`shutdownDeadline, this`spent, this`times,
               this`state, this`lastBoundaryPoints, this`loopStarts
      ensures old(now) <= now && (old(stopRequested) ==> stopRequested)
      ensures FieldUnproven(outputStatus) && old(outputStatus).Keys <= outputStatus.Keys
      ensures LitOnly(dryRun, plan.actions, old(energized), energized)
      ensures mokeOwnsOutput && !old(mokeOwnsOutput) ==> mokeAvailable && !dryRun
      ensures old(mokeOwnsOutput) ==> mokeOwnsOutput
      ensures old(MokeTracked()) ==> MokeTracked()
      ensures Measured(policy, b, Records(), completed, stored1, attempted1)
      ensures o.Done? ==> completed == i + 1 && Measuring(policy, b, Records(), i + 1, stored1, attempted1, confirmed1)
      ensures o.Done? ==> Truthful(outputStatus, energized)
      ensures o.Done? && old(mokePlan) == HeldAfter(plan.actions, i) ==> mokePlan == HeldAfter(plan.actions, i + 1)
      ensures Reserve() <= old(Reserve())
    {
      completed, stored1, attempted1, confirmed1 := i, stored, attempted, confirmed;
      o := RaiseIfStopRequested();
      if o.Raised? {
        MeasuringIsMeasured(policy, b, Records(), i, stored, attempted, confirmed);
        NothingLit(dryRun, plan.actions, energized, energized);
        return;
      }
      NothingLit(dryRun, plan.actions, energized, energized);
      var a := plan.actions[i];
      attempted1 := NextAttempted(a, attempted);
      o, completed, stored1 := RunOrSkip(plan, i, i, stored, b.inStep, b.stored);
      ActionMeasured(policy, b, old(Records()), Records(), i, stored, completed, stored1, attempted, confirmed);
      LitByOne(dryRun, plan.actions, i, old(energized), old(energized), energized);
      confirmed1 := NextConfirmed(a, confirmed);
    }

    /** The measurement: every action from `start` on, one after the other, until one raises. */
    method RunActions(plan: ExecutionPlan, start: nat, stored0: nat, ghost b: Beginning)
      returns (o: Outcome, completed: nat, stored: nat, attempted: set<string>, confirmed: set<Endpoint>)
      requires Compiled(plan) && start <= |plan.actions| && policy.Accepted()
      requires b.plan == plan && b.start == start && b.stored == stored0 && b.books == Books()
      requires b.inStep ==> Checkpoints(plan.actions[..start]) == stored0
      requires OnlyPrelude(dispatches) && loopStarts == []
      requires resumeOutputScope == ControlledOutputEndpoints(plan.actions)
      requires OnRecord(plan, b.inStep, stored0, stored0, lastBoundaryPoints, archive)
      requires Truthful(outputStatus, energized) && FieldUnproven(outputStatus)
      modifies this`now, this`stopRequested, this`watchdogTimedOut, this`archive, this`energized, this`outputActive,
               this`outputStatus, this`compliance, this`mokePlan, this`mokeOwnsOutput, this`mokeOwnedChannels,
               this`mokeStops, this`mokeDriven,
               this`referenceReady, this`dispatches, this`rawSweeps, this`shutdownDeadline, this`spent, this`times,
               this`state, this`lastBoundaryPoints, this`loopStarts
      ensures old(now) <= now && (old(stopRequested) ==> stopRequested)
      ensures FieldUnproven(outputStatus) && old(outputStatus).Keys <= outputStatus.Keys
      ensures LitOnly(dryRun, plan.actions, old(energized), energized)
      ensures mokeOwnsOutput && !old(mokeOwnsOutput) ==> mokeAvailable && !dryRun
      ensures old(mokeOwnsOutput) ==> mokeOwnsOutput
      ensures old(MokeTracked()) ==> MokeTracked()
      ensures Measured(policy, b, Records(), completed, stored, attempted)
      ensures o.Done? ==> completed == |plan.actions| && Measuring(policy, b, Records(), |plan.actions|, stored, attempted, confirmed)
      ensures o.Done? ==> Truthful(outputStatus, energized)
      ensures o.Done? && start == 0 && old(mokePlan).None? ==> mokePlan == HeldAfter(plan.actions, |plan.actions|)
      ensures Reserve() <= old(Reserve())
    {
      hide QuietlyExtends, Truthful, FieldUnproven, Measured, Measuring;
      completed, stored, attempted, confirmed := start, stored0, {}, {};
      MeasuringStarts(policy, b, Records());
      o := Done;
      while completed < |plan.actions|
        invariant Reserve() <= old(Reserve())
        invariant old(now) <= now && (old(stopRequested) ==> stopRequested)
        invariant FieldUnproven(outputStatus) && old(outputStatus).Keys <= outputStatus.Keys
        invariant LitOnly(dryRun, plan.actions, old(energized), energized)
        invariant mokeOwnsOutput && !old(mokeOwnsOutput) ==> mokeAvailable && !dryRun
        invariant old(mokeOwnsOutput) ==> mokeOwnsOutput
        invariant old(MokeTracked()) ==> MokeTracked()
        invariant o.Done? && Measuring(policy, b, Records(), completed, stored, attempted, confirmed)
        invariant Truthful(outputStatus, energized)
        invariant completed <= |plan.actions|
        invariant start == 0 && old(mokePlan).None? ==> mokePlan == HeldAfter(plan.actions, completed)
        decreases |plan.actions| - completed
      {
        o, completed, stored, attempted, confirmed := NextAction(plan, b, completed, stored, attempted, confirmed);
        if o.Raised? {
          return;
        }
      }
      MeasuringIsMeasured(policy, b, Records(), completed, stored, attempted, confirmed);
    }

    // ---- Before the first action ----

    /** Corrected acquisitions need a reference recovered, or acquired earlier in this run. */
    method CheckReferences(actions: seq<PlanAction>, recovered: bool) returns (o: Outcome)
      modifies this`now, this`stopRequested, this`watchdogTimedOut
      ensures old(now) <= now && (old(stopRequested) ==> stopRequested)
      ensures o.Done? ==> forall i | 0 <= i < |actions| && actions[i].kind.AcquireSpectrum? && actions[i].kind.block.needsReference ::
                recovered || exists j :: 0 <= j < i && actions[j].kind.AcquireReference?
    {
      var available := recovered;
      for i := 0 to |actions|
        invariant old(now) <= now && (old(stopRequested) ==> stopRequested)
        invariant available ==> recovered || exists j :: 0 <= j < i && actions[j].kind.AcquireReference?
        invariant forall k | 0 <= k < i && actions[k].kind.AcquireSpectrum? && actions[k].kind.block.needsReference ::
                    recovered || exists j :: 0 <= j < k && actions[j].kind.AcquireReference?
      {
        :- RaiseIfStopRequested();
        if actions[i].kind.AcquireReference? {
          available := true;
        }
        if actions[i].kind.AcquireSpectrum? && actions[i].kind.block.needsReference && !available {
          return Raised(ExecutionError);
        }
        if (actions[i].kind.AcquireReference? || actions[i].kind.AcquireSpectrum?) && actions[i].kind.block.fromFile {
          :- Query();
        }
      }
      return Done;
    }

    /** A dry run begins with every owned output confirmed OFF. */
    method ConfirmDryRunOutputsOff() returns (o: Outcome)
      requires OwnedOutputs() <= outputStatus.Keys
      modifies this`now, this`stopRequested, this`watchdogTimedOut, this`archive, this`energized, this`outputActive,
               this`outputStatus, this`mokeOwnedChannels, this`mokeStops, this`mokeDriven
      ensures old(now) <= now && (old(stopRequested) ==> stopRequested)
      ensures QuietlyExtends(old(archive), archive)
      ensures StepKeeps({}, dryRun, o.Done?, old(outputStatus), old(energized), outputStatus, energized)
      ensures mokeDriven == old(mokeDriven) && mokeOwnedChannels == old(mokeOwnedChannels)
      ensures o.Done? ==> OutputsSettled(OwnedOutputs(), {}, outputStatus, energized)
    {
      hide QuietlyExtends, Truthful, FieldUnproven;
      QuietlyExtendsSelf(archive);
      var order, failed, guarded := [Keithley, Rigol, Anritsu], false, {};
      var i := 0;
      while i < |order|
        invariant 0 <= i <= |order|
        invariant mokeDriven == old(mokeDriven) && mokeOwnedChannels == old(mokeOwnedChannels)
        invariant old(now) <= now && (old(stopRequested) ==> stopRequested)
        invariant QuietlyExtends(old(archive), archive)
        invariant StepKeeps({}, dryRun, true, old(outputStatus), old(energized), outputStatus, energized)
        invariant guarded == set j | 0 <= j < i && Guarded(order[j]) :: order[j]
        invariant !failed ==> forall e | e in energized :: e.Owner() !in guarded
      {
        if Guarded(order[i]) {
          ghost var logged, status0, energized0 := archive, outputStatus, energized;
          var done: bool;
          o, done := GuardOne(order[i]);
          QuietlyExtendsTransitive(old(archive), logged, archive);
          StepKeepsTransitive(dryRun, old(outputStatus), old(energized), status0, energized0, outputStatus, energized);
          if o.Raised? {
            return;
          }
          failed := failed || !done;
          guarded := guarded + {order[i]};
        }
        i := i + 1;
      }
      if failed {
        return Raised(ExecutionError);
      }
      forall e | e in OwnedOutputs() ensures e.Owner() in guarded {
        assert e.Owner() == order[0] || e.Owner() == order[1] || e.Owner() == order[2];
      }
      ghost var status0 := outputStatus;
      RecordGuarded(guarded);
      StepKeepsTransitive(dryRun, old(outputStatus), old(energized), status0, energized, outputStatus, energized);
      return Done;
    }

    method RecordGuarded(guarded: set<Device>)
      requires forall e | e in energized :: e.Owner() !in guarded
      requires forall e | e in OwnedOutputs() :: e.Owner() in guarded
      requires OwnedOutputs() <= outputStatus.Keys && Moke !in guarded
      modifies this`outputActive, this`outputStatus
      ensures StepKeeps({}, dryRun, true, old(outputStatus), energized, outputStatus, energized)
      ensures OutputsSettled(OwnedOutputs(), {}, outputStatus, energized)
    {
      outputActive := {};
      outputStatus := map e | e in outputStatus :: if e.Owner() in guarded then Off else outputStatus[e];
    }

    predicate Guarded(d: Device)
      reads this`requiredDevices, this`anritsuOwnsOutput
    {
      d in requiredDevices && (d.Anritsu? ==> anritsuOwnsOutput)
    }

    method GuardOne(d: Device) returns (o: Outcome, done: bool)
      requires d.Keithley? || d.Rigol? || (d.Anritsu? && anritsuOwnsOutput)
      modifies this`now, this`stopRequested, this`watchdogTimedOut, this`archive, this`energized, this`outputStatus,
               this`mokeOwnedChannels, this`mokeStops, this`mokeDriven
      ensures old(now) <= now && (old(stopRequested) ==> stopRequested)
      ensures QuietlyExtends(old(archive), archive)
      ensures StepKeeps({}, dryRun, true, old(outputStatus), old(energized), outputStatus, energized)
      ensures mokeDriven == old(mokeDriven) && mokeOwnedChannels == old(mokeOwnedChannels)
      ensures done ==> forall e | e in energized :: e.Owner() != d
    {
      done := false;
      :- Emit(OtherEvent("dry_run_output_guard_started"));
      ghost var logged := archive;
      var off := ShutdownOwnedDevice(d, {});
      QuietlyExtendsTransitive(old(archive), logged, archive);
      logged := archive;
      if off.Raised? {
        EmitAfterFault("dry_run_output_guard_error");
        o := Done;
      } else {
        done := true;
        o := Emit(OtherEvent("dry_run_output_guard_confirmed"));
      }
      QuietlyExtendsTransitive(old(archive), logged, archive);
    }

    method RunPreludeAction(a: PlanAction, ghost k: nat) returns (o: Outcome)
      requires CompiledAction(a) && policy.Accepted() && OnlyPrelude(dispatches)
      modifies this`now, this`stopRequested, this`watchdogTimedOut, this`archive, this`energized, this`outputActive,
               this`outputStatus, this`compliance, this`mokePlan, this`mokeOwnsOutput, this`mokeOwnedChannels,
               this`mokeStops, this`mokeDriven,
               this`referenceReady, this`dispatches, this`rawSweeps, this`shutdownDeadline, this`spent, this`times
      ensures old(now) <= now && (old(stopRequested) ==> stopRequested)
      ensures QuietlyExtends(old(archive), archive)
      ensures StepKeeps({}, dryRun, true, old(outputStatus), old(energized), outputStatus, energized)
      ensures OnlyPrelude(dispatches) && rawSweeps == old(rawSweeps)
      ensures mokeOwnsOutput && !old(mokeOwnsOutput) ==> mokeAvailable && !dryRun
      ensures old(mokeOwnsOutput) ==> mokeOwnsOutput
      ensures old(MokeTracked()) ==> MokeTracked()
      ensures mokePlan == old(mokePlan)
      ensures Reserve() <= old(Reserve())
    {
      if !PreludeKind(a.kind) {
        return Raised(ExecutionError);
      }
      assert TurnsOn(a.kind) == {};
      :- Emit(OtherEvent("recovery_prelude_started"));
      ghost var logged := archive;
      var acquired: bool;
      o, acquired := ExecuteWithPolicy(a, FromPrelude(k));
      PreludeStep(policy, a, k, old(Books()), Books());
      QuietlyExtendsTransitive(old(archive), logged, archive);
      if o.Done? {
        logged := archive;
        o := Emit(OtherEvent("recovery_prelude_finished"));
        QuietlyExtendsTransitive(old(archive), logged, archive);
      }
    }

    /** External inputs are checked, and the outputs of a dry run confirmed off, before anything is set up. */
    method CheckInputs(plan: ExecutionPlan, start: nat, recovered: bool) returns (o: Outcome)
      requires start <= |plan.actions|
      requires OwnedOutputs() <= outputStatus.Keys
      modifies this`now, this`stopRequested, this`watchdogTimedOut, this`archive, this`energized, this`outputActive,
               this`outputStatus, this`mokeOwnedChannels, this`mokeStops, this`mokeDriven
      ensures old(now) <= now && (old(stopRequested) ==> stopRequested)
      ensures QuietlyExtends(old(archive), archive)
      ensures StepKeeps({}, dryRun, true, old(outputStatus), old(energized), outputStatus, energized)
      ensures mokeDriven == old(mokeDriven) && mokeOwnedChannels == old(mokeOwnedChannels)
      ensures o.Done? && dryRun ==> forall e | e in OwnedOutputs() :: e !in energized
    {
      o := Emit(OtherEvent("run_started"));
      if o.Raised? {
        return;
      }
      :- CheckReferences(plan.actions[start..], recovered);
      if dryRun {
        ghost var logged := archive;
        o := ConfirmDryRunOutputsOff();
        QuietlyExtendsTransitive(old(archive), logged, archive);
      } else {
        o := Done;
      }
    }

    method RecoverReference() returns (o: Outcome)
      modifies this`now, this`stopRequested, this`watchdogTimedOut, this`archive, this`referenceReady
      ensures old(now) <= now && (old(stopRequested) ==> stopRequested)
      ensures QuietlyExtends(old(archive), archive)
    {
      o := Query();
      if o.Raised? {
        return;
      }
      referenceReady := true;
      o := Emit(OtherEvent("reference_recovered"));
    }

    /** All that happens before the first action of the plan. It cannot turn an output on. */
    method Prepare(plan: ExecutionPlan, start: nat, prelude: seq<PlanAction>, recovered: bool) returns (o: Outcome)
      requires start <= |plan.actions| && policy.Accepted() && OnlyPrelude(dispatches)
      requires forall a | a in prelude :: CompiledAction(a)
      requires OwnedOutputs() <= outputStatus.Keys
      modifies this`now, this`stopRequested, this`watchdogTimedOut, this`archive, this`energized, this`outputActive,
               this`outputStatus, this`compliance, this`mokePlan, this`mokeOwnsOutput, this`mokeOwnedChannels,
               this`mokeStops, this`mokeDriven,
               this`referenceReady, this`dispatches, this`rawSweeps, this`shutdownDeadline, this`spent, this`times
      ensures old(now) <= now && (old(stopRequested) ==> stopRequested)
      ensures QuietlyExtends(old(archive), archive)
      ensures StepKeeps({}, dryRun, true, old(outputStatus), old(energized), outputStatus, energized)
      ensures OnlyPrelude(dispatches) && rawSweeps == old(rawSweeps)
      ensures prelude == [] ==> dispatches == old(dispatches) && times == old(times)
      ensures mokeOwnsOutput && !old(mokeOwnsOutput) ==> mokeAvailable && !dryRun
      ensures old(mokeOwnsOutput) ==> mokeOwnsOutput
      ensures old(MokeTracked()) ==> MokeTracked()
      ensures o.Done? && dryRun ==> forall e | e in OwnedOutputs() :: e !in energized
      ensures mokePlan == old(mokePlan)
      ensures Reserve() <= old(Reserve())
    {
      hide QuietlyExtends, Truthful, FieldUnproven, OnlyPrelude, OwnedOutputs;
      o := CheckInputs(plan, start, recovered);
      if o.Raised? {
        return;
      }
      ghost var logged, status0, energized0 := archive, outputStatus, energized;
      o := RunPrelude(prelude);
      QuietlyExtendsTransitive(old(archive), logged, archive);
      StepKeepsTransitive(dryRun, old(outputStatus), old(energized), status0, energized0, outputStatus, energized);
      if o.Done? && recovered {
        logged := archive;
        o := RecoverReference();
        QuietlyExtendsTransitive(old(archive), logged, archive);
      }
    }

    method RunPrelude(prelude: seq<PlanAction>) returns (o: Outcome)
      requires policy.Accepted() && OnlyPrelude(dispatches) && forall a | a in prelude :: CompiledAction(a)
      modifies this`now, this`stopRequested, this`watchdogTimedOut, this`archive, this`energized, this`outputActive,
               this`outputStatus, this`compliance, this`mokePlan, this`mokeOwnsOutput, this`mokeOwnedChannels,
               this`mokeStops, this`mokeDriven,
               this`referenceReady, this`dispatches, this`rawSweeps, this`shutdownDeadline, this`spent, this`times
      ensures old(now) <= now && (old(stopRequested) ==> stopRequested)
      ensures QuietlyExtends(old(archive), archive)
      ensures StepKeeps({}, dryRun, true, old(outputStatus), old(energized), outputStatus, energized)
      ensures OnlyPrelude(dispatches) && rawSweeps == old(rawSweeps)
      ensures prelude == [] ==> dispatches == old(dispatches) && times == old(times)
      ensures mokeOwnsOutput && !old(mokeOwnsOutput) ==> mokeAvailable && !dryRun
      ensures old(mokeOwnsOutput) ==> mokeOwnsOutput
      ensures old(MokeTracked()) ==> MokeTracked()
      ensures mokePlan == old(mokePlan)
      ensures Reserve() <= old(Reserve())
    {
      o := Done;
      for k := 0 to |prelude|
        invariant Reserve() <= old(Reserve())
        invariant old(now) <= now && (old(stopRequested) ==> stopRequested)
        invariant QuietlyExtends(old(archive), archive)
        invariant StepKeeps({}, dryRun, true, old(outputStatus), old(energized), outputStatus, energized)
        invariant OnlyPrelude(dispatches) && rawSweeps == old(rawSweeps)
        invariant mokePlan == old(mokePlan)
        invariant k == 0 ==> dispatches == old(dispatches) && times == old(times)
        invariant mokeOwnsOutput && !old(mokeOwnsOutput) ==> mokeAvailable && !dryRun
        invariant old(mokeOwnsOutput) ==> mokeOwnsOutput
        invariant old(MokeTracked()) ==> MokeTracked()
        invariant o.Done?
      {
        ghost var logged, status0, energized0 := archive, outputStatus, energized;
        o := RunPreludeAction(prelude[k], k);
        QuietlyExtendsTransitive(old(archive), logged, archive);
        StepKeepsTransitive(dryRun, old(outputStatus), old(energized), status0, energized0, outputStatus, energized);
        if o.Raised? {
          return;
        }
      }
    }

    // ---- The end of a run ----

    /** The outputs a successful run leaves on: none of them in a dry run. */
    function HeldAtEnd(plan: ExecutionPlan): set<Endpoint> {
      if dryRun then {} else RetainedOutputs(plan.actions)
    }

    /** Being held, read off the plan. */
    lemma HeldMeans(plan: ExecutionPlan)
      ensures forall e :: e in HeldAtEnd(plan) <==>
                !dryRun && exists a :: a in plan.actions && a.completionOnly && a.retainedOutput == Some(e)
      ensures HeldAtEnd(plan) != {} <==> !dryRun && exists a :: a in plan.actions && a.completionOnly && a.retainedOutput.Some?
    {
      forall e ensures e in HeldAtEnd(plan) <==>
                !dryRun && exists a :: a in plan.actions && a.completionOnly && a.retainedOutput == Some(e)
      {
        if e in HeldAtEnd(plan) {
          var a :| a in plan.actions && a.completionOnly && a.retainedOutput.Some? && a.retainedOutput.value == e;
          assert a.retainedOutput == Some(e);
        }
      }
      if HeldAtEnd(plan) != {} {
        var e :| e in HeldAtEnd(plan);
      }
      if !dryRun && exists a :: a in plan.actions && a.completionOnly && a.retainedOutput.Some? {
        var a :| a in plan.actions && a.completionOnly && a.retainedOutput.Some?;
        assert a.retainedOutput.value in HeldAtEnd(plan);
      }
    }

    lemma HeldIsRetainable(plan: ExecutionPlan)
      requires Compiled(plan)
      ensures forall e | e in HeldAtEnd(plan) :: Retainable(e)
    {
      RetainedAreRetainable(plan);
    }

    /** The last event, the close of the archive, and the listener: each of them may still fail. */
    method ReportCompletion() returns (o: Outcome)
      modifies this`now, this`stopRequested, this`watchdogTimedOut, this`archive
      ensures old(now) <= now && (old(stopRequested) ==> stopRequested)
      ensures QuietlyExtends(old(archive), archive)
    {
      o := Emit(OtherEvent("run_completed"));
      if o.Raised? {
        return;
      }
      :- Query();
      o := Query();
    }

    method SettleAtEnd(held: set<Endpoint>) returns (o: Outcome)
      requires OwnedOutputs() <= outputStatus.Keys && forall e | e in held :: Retainable(e)
      modifies this`now, this`stopRequested, this`watchdogTimedOut, this`archive, this`energized, this`outputStatus,
               this`mokeOwnedChannels, this`mokeStops, this`mokeDriven, this`shutdownDeadline, this`spent,
               this`offers, this`tried, this`flushFailures,
               this`state, this`shutdowns, this`shutdownBooks
      ensures old(now) <= now && (old(stopRequested) ==> stopRequested)
      ensures QuietlyExtends(old(archive), archive)
      ensures StepKeeps({}, dryRun, true, old(outputStatus), old(energized), outputStatus, energized)
      ensures o.Done? ==> OutputsSettled(OwnedOutputs(), held, outputStatus, energized)
      ensures shutdowns == old(shutdowns) + [Shutdown(held, |dispatches|)]
      ensures o.Done? && old(MokeTracked()) ==> forall c | c in mokeDriven :: MokeVout(c) in held
      ensures old(MokeTracked()) ==> MokeTracked()
      ensures mokeDriven <= old(mokeDriven) && old(mokeOwnedChannels) <= mokeOwnedChannels
      ensures Reserve() <= old(Reserve())
    {
      var confirmed := SafeShutdown(held, true);
      o := if confirmed then Done else Raised(ExecutionError);
    }

    /** The successful end: outputs brought to their final state, the archive closed. Any failure here is a fault. */
    method Conclude(plan: ExecutionPlan, confirmed: set<Endpoint>) returns (o: Outcome)
      requires Compiled(plan) && OwnedOutputs() <= outputStatus.Keys
      modifies this`now, this`stopRequested, this`watchdogTimedOut, this`archive, this`energized, this`outputStatus,
               this`mokeOwnedChannels, this`mokeStops, this`mokeDriven, this`shutdownDeadline, this`spent,
               this`offers, this`tried, this`flushFailures,
               this`state, this`shutdowns, this`shutdownBooks
      ensures old(now) <= now && (old(stopRequested) ==> stopRequested)
      ensures QuietlyExtends(old(archive), archive)
      ensures StepKeeps({}, dryRun, true, old(outputStatus), old(energized), outputStatus, energized)
      ensures o.Done? && HeldAtEnd(plan) != {} ==> confirmed == HeldAtEnd(plan)
      ensures o.Done? ==> OutputsSettled(OwnedOutputs(), HeldAtEnd(plan), outputStatus, energized)
      ensures o.Done? ==> state == if HeldAtEnd(plan) != {} then Holding else if mokeOwnsOutput then Undetermined else Safe
      ensures o.Done? ==> shutdowns == old(shutdowns) + [Shutdown(HeldAtEnd(plan), |dispatches|)]
      ensures o.Done? ==> (state == Holding <==> !dryRun && exists a :: a in plan.actions && a.completionOnly && a.retainedOutput.Some?)
      ensures o.Done? ==> forall e | e in OwnedOutputs() ::
                && e in outputStatus && outputStatus[e] == (if e in energized then On else Off)
                && (e in energized <==> !dryRun && exists a :: a in plan.actions && a.completionOnly && a.retainedOutput == Some(e))
      ensures o.Done? && old(MokeTracked()) ==> forall c | c in mokeDriven ::
                !dryRun && exists a :: a in plan.actions && a.completionOnly && a.retainedOutput == Some(MokeVout(c))
      ensures o.Done? && old(MokeTracked()) ==> forall c | c in mokeDriven :: MokeVout(c) in HeldAtEnd(plan)
      ensures old(MokeTracked()) ==> MokeTracked()
      ensures Reserve() <= old(Reserve())
    {
      hide QuietlyExtends, StepKeeps, OutputsSettled, OwnedOutputs, HeldAtEnd, MokeTracked, RetainedOutputs;
      QuietlyExtendsSelf(archive);
      StepKeepsSelf(dryRun, outputStatus, energized);
      HeldMeans(plan);
      var held := HeldAtEnd(plan);
      HeldIsRetainable(plan);
      if held != {} && confirmed != held {
        return Raised(ExecutionError);
      }
      o := SettleAtEnd(held);
      if o.Raised? {
        return;
      }
      state := if held != {} then Holding else if mokeOwnsOutput then Undetermined else Safe;
      ghost var logged := archive;
      o := ReportCompletion();
      QuietlyExtendsTransitive(old(archive), logged, archive);
      OnExactlyIfHeld(plan, held);
    }

    lemma OnExactlyIfHeld(plan: ExecutionPlan, held: set<Endpoint>)
      requires held == HeldAtEnd(plan) && OutputsSettled(OwnedOutputs(), held, outputStatus, energized)
      ensures forall e | e in OwnedOutputs() ::
                && e in outputStatus && outputStatus[e] == (if e in energized then On else Off)
                && (e in energized <==> !dryRun && exists a :: a in plan.actions && a.completionOnly && a.retainedOutput == Some(e))
    {
      hide OwnedOutputs, HeldAtEnd;
      HeldMeans(plan);
    }

    /** Closes the archive; when that fails too, the original failure is kept and the state is a fault. */
    method CloseAfterError()
      modifies this`now, this`stopRequested, this`watchdogTimedOut, this`state
      ensures old(now) <= now && (old(stopRequested) ==> stopRequested)
      ensures state == old(state) || state == Fault
    {
      var closed := Query();
      if closed.Raised? {
        state := Fault;
      }
    }

    method MarkAllUnknown()
      modifies this`outputStatus
      ensures outputStatus.Keys == old(outputStatus).Keys
      ensures forall e | e in outputStatus :: outputStatus[e] == Unknown
    {
      outputStatus := map e | e in outputStatus :: Unknown;
    }

    /**
     What the shutdown after a failure has come to: every instrument of the run had its turn, the MOKE DAC too if the run
     owns it; and if the DAC was offered a slice, every channel that the run owned then, and so every one that may still
     be off zero, was tried.
     */
    ghost predicate EveryoneServed()
      reads this`shutdownBooks, this`tried, this`mokeStops, this`mokeDriven, this`mokeOwnsOutput, this`requiredDevices
    {
      var b := shutdownBooks;
      && (forall d | d in requiredDevices && (d.Keithley? || d.Rigol? || d.Anritsu?) :: TriedSince(b.turns, tried, d))
      && (mokeOwnsOutput && mokeAvailable ==> TriedSince(b.turns, tried, Moke))
      && (mokeOwnsOutput && MokeOffered(b.turns, tried) ==> forall c | c in b.channels :: StopTried(b.stops, mokeStops, c))
      && mokeDriven <= b.channels && (mokeDriven != {} ==> mokeOwnsOutput)
    }

    /** Clean-up and a shutdown that holds nothing: how every run ends that does not succeed. */
    method CleanUpAndShutDown(plan: ExecutionPlan, attempted: set<string>) returns (ok: bool)
      requires Compiled(plan) && OwnedOutputs() <= outputStatus.Keys && MokeTracked()
      modifies this`now, this`stopRequested, this`watchdogTimedOut, this`archive, this`energized, this`outputActive,
               this`outputStatus, this`compliance, this`mokePlan, this`mokeOwnsOutput, this`mokeOwnedChannels,
               this`mokeStops, this`mokeDriven,
               this`referenceReady, this`dispatches, this`rawSweeps, this`shutdownDeadline, this`spent,
               this`cleanupStarts,
               this`offers, this`tried, this`flushFailures, this`state, this`shutdowns, this`shutdownBooks
      ensures old(now) <= now && (old(stopRequested) ==> stopRequested)
      ensures QuietlyExtends(old(archive), archive)
      ensures StepKeeps({}, dryRun, true, old(outputStatus), old(energized), outputStatus, energized)
      ensures cleanupStarts == old(cleanupStarts) + Pending(plan.actions, attempted, 0)
      ensures CleanedUp(old(dispatches), dispatches, Pending(plan.actions, attempted, 0))
      ensures rawSweeps == old(rawSweeps) && state == Stopping
      ensures mokeOwnsOutput && !old(mokeOwnsOutput) ==> mokeAvailable && !dryRun
      ensures old(mokeOwnsOutput) ==> mokeOwnsOutput
      ensures old(MokeTracked()) ==> MokeTracked()
      ensures shutdowns == old(shutdowns) + [Shutdown({}, |dispatches|)]
      ensures ok ==> OutputsSettled(OwnedOutputs(), {}, outputStatus, energized)
      ensures EveryoneServed() && (ok ==> mokeDriven == {})
      ensures Reserve() <= old(Reserve())
    {
      hide Truthful, FieldUnproven, QuietlyExtends, OutputsSettled, FairlyShared, TriedSince, CleanedUp, Pending,
           HalvedKept, DistinctDevices,
           StopTried, ZeroConfirmed, MokeOffered;
      var cleaned := RunPendingFinally(plan, attempted);
      ghost var logged, status0, energized0, moke0 := archive, outputStatus, energized, MokeNow();
      var off := SafeShutdown({}, false);
      QuietlyExtendsTransitive(old(archive), logged, archive);
      StepKeepsTransitive(dryRun, old(outputStatus), old(energized), status0, energized0, outputStatus, energized);
      ok := cleaned && off;
      if ok {
        forall c ensures c !in mokeDriven {
          assert c in mokeDriven ==> c in moke0.channels && MokeVout(c) !in {};
        }
      }
    }

    /** After an operator stop. */
    method AbortSafely(plan: ExecutionPlan, attempted: set<string>)
      requires Compiled(plan) && OwnedOutputs() <= outputStatus.Keys && MokeTracked()
      modifies this`now, this`stopRequested, this`watchdogTimedOut, this`archive, this`energized, this`outputActive,
               this`outputStatus, this`compliance, this`mokePlan, this`mokeOwnsOutput, this`mokeOwnedChannels,
               this`mokeStops, this`mokeDriven,
               this`referenceReady, this`dispatches, this`rawSweeps, this`shutdownDeadline, this`spent,
               this`cleanupStarts,
               this`offers, this`tried, this`flushFailures, this`state, this`shutdowns, this`shutdownBooks
      ensures QuietlyExtends(old(archive), archive)
      ensures energized <= old(energized)
      ensures cleanupStarts == old(cleanupStarts) + Pending(plan.actions, attempted, 0)
      ensures CleanedUp(old(dispatches), dispatches, Pending(plan.actions, attempted, 0))
      ensures rawSweeps == old(rawSweeps)
      ensures mokeOwnsOutput && !old(mokeOwnsOutput) ==> mokeAvailable && !dryRun
      ensures shutdowns == old(shutdowns) + [Shutdown({}, |dispatches|)]
      ensures state == Safe || state == Undetermined || state == Fault
      ensures state == Safe ==> !mokeOwnsOutput
      ensures state != Fault ==> OutputsSettled(OwnedOutputs(), {}, outputStatus, energized)
      ensures EveryoneServed() && (state != Fault ==> mokeDriven == {})
      ensures Reserve() <= old(Reserve())
    {
      hide QuietlyExtends, Pending, CleanedUp, OutputsSettled, OwnedOutputs, Truthful, FieldUnproven, StepKeeps,
           Compiled, EveryoneServed;
      EmitAfterFault("run_aborting");
      ghost var logged, status0 := archive, outputStatus;
      var ok := CleanUpAndShutDown(plan, attempted);
      StepKeepsMeans(dryRun, status0, old(energized), outputStatus, energized);
      QuietlyExtendsTransitive(old(archive), logged, archive);
      logged := archive;
      ReportAbort(ok);
      QuietlyExtendsTransitive(old(archive), logged, archive);
    }

    method ReportAbort(ok: bool)
      modifies this`now, this`stopRequested, this`watchdogTimedOut, this`archive, this`state
      ensures old(now) <= now && QuietlyExtends(old(archive), archive)
      ensures state == Fault || (ok && state == if mokeOwnsOutput then Undetermined else Safe)
    {
      state := if !ok then Fault else if mokeOwnsOutput then Undetermined else Safe;
      EmitAfterFault(if ok then "run_aborted" else "run_fault");
      CloseAfterError();
    }

    /** What is known about the outputs is forgotten, and the fault reported. */
    method ReportFault()
      modifies this`now, this`stopRequested, this`watchdogTimedOut, this`archive, this`state, this`outputStatus
      ensures old(now) <= now && QuietlyExtends(old(archive), archive)
      ensures outputStatus.Keys == old(outputStatus).Keys && Truthful(outputStatus, energized)
    {
      state := Fault;
      MarkAllUnknown();
      EmitAfterFault("action_failed");
      ghost var logged := archive;
      EmitAfterFault("run_fault");
      QuietlyExtendsTransitive(old(archive), logged, archive);
    }

    /** After a fault: output states count as unknown until the shutdown itself confirms them. */
    method EndInFault(plan: ExecutionPlan, attempted: set<string>)
      requires Compiled(plan) && OwnedOutputs() <= outputStatus.Keys && MokeTracked()
      modifies this`now, this`stopRequested, this`watchdogTimedOut, this`archive, this`energized, this`outputActive,
               this`outputStatus, this`compliance, this`mokePlan, this`mokeOwnsOutput, this`mokeOwnedChannels,
               this`mokeStops, this`mokeDriven,
               this`referenceReady, this`dispatches, this`rawSweeps, this`shutdownDeadline, this`spent,
               this`cleanupStarts,
               this`offers, this`tried, this`flushFailures, this`state, this`shutdowns, this`shutdownBooks
      ensures QuietlyExtends(old(archive), archive)
      ensures energized <= old(energized)
      ensures cleanupStarts == old(cleanupStarts) + Pending(plan.actions, attempted, 0)
      ensures CleanedUp(old(dispatches), dispatches, Pending(plan.actions, attempted, 0))
      ensures rawSweeps == old(rawSweeps)
      ensures mokeOwnsOutput && !old(mokeOwnsOutput) ==> mokeAvailable && !dryRun
      ensures shutdowns == old(shutdowns) + [Shutdown({}, |dispatches|)]
      ensures state == Fault
      ensures Truthful(outputStatus, energized)
      ensures EveryoneServed()
      ensures Reserve() <= old(Reserve())
    {
      hide QuietlyExtends, Pending, CleanedUp, OutputsSettled, FieldUnproven, Truthful, StepKeeps, Compiled,
           OwnedOutputs, EveryoneServed;
      ReportFault();
      ghost var logged, status0 := archive, outputStatus;
      var ok := CleanUpAndShutDown(plan, attempted);
      StepKeepsMeans(dryRun, status0, old(energized), outputStatus, energized);
      QuietlyExtendsTransitive(old(archive), logged, archive);
      state := Fault;
      CloseAfterError();
    }

    /** Clean-up, shutdown and close after an exception: an abort when the operator stopped, a fault otherwise. */
    method EndUnsuccessfully(plan: ExecutionPlan, attempted: set<string>)
      requires Compiled(plan) && OwnedOutputs() <= outputStatus.Keys && MokeTracked()
      modifies this`now, this`stopRequested, this`watchdogTimedOut, this`archive, this`energized, this`outputActive,
               this`outputStatus, this`compliance, this`mokePlan, this`mokeOwnsOutput, this`mokeOwnedChannels,
               this`mokeStops, this`mokeDriven,
               this`referenceReady, this`dispatches, this`rawSweeps, this`shutdownDeadline, this`spent,
               this`cleanupStarts,
               this`offers, this`tried, this`flushFailures, this`state, this`shutdowns, this`shutdownBooks
      ensures QuietlyExtends(old(archive), archive)
      ensures energized <= old(energized)
      ensures cleanupStarts == old(cleanupStarts) + Pending(plan.actions, attempted, 0)
      ensures CleanedUp(old(dispatches), dispatches, Pending(plan.actions, attempted, 0))
      ensures rawSweeps == old(rawSweeps)
      ensures mokeOwnsOutput && !old(mokeOwnsOutput) ==> mokeAvailable && !dryRun
      ensures shutdowns == old(shutdowns) + [Shutdown({}, |dispatches|)]
      ensures state == Safe || state == Undetermined || state == Fault
      ensures state == Safe ==> !mokeOwnsOutput
      ensures state != Fault ==> old(stopRequested) && !old(watchdogTimedOut)
      ensures state != Fault ==> OutputsSettled(OwnedOutputs(), {}, outputStatus, energized)
      ensures EveryoneServed() && (state != Fault ==> mokeDriven == {})
      ensures Reserve() <= old(Reserve())
    {
      hide EveryoneServed;
      if stopRequested && !watchdogTimedOut {
        AbortSafely(plan, attempted);
      } else {
        EndInFault(plan, attempted);
      }
    }

    /** What the plan makes the run responsible for. Nothing is known about any output yet. */
    method TakeOwnership(plan: ExecutionPlan)
      modifies this`resumeOutputScope, this`requiredDevices, this`anritsuOwnsOutput, this`safeShutdownActions,
               this`outputStatus
      ensures resumeOutputScope == ControlledOutputEndpoints(plan.actions)
      ensures requiredDevices == plan.requiredDevices + RequiredDevicesFor(plan.actions)
      ensures anritsuOwnsOutput == (AnritsuSg in resumeOutputScope)
      ensures safeShutdownActions == plan.safeShutdownActions
      ensures outputStatus.Keys == OwnedOutputs() && forall e | e in outputStatus :: outputStatus[e] == Unknown
    {
      resumeOutputScope := ControlledOutputEndpoints(plan.actions);
      requiredDevices := plan.requiredDevices + RequiredDevicesFor(plan.actions);
      anritsuOwnsOutput := AnritsuSg in resumeOutputScope;
      safeShutdownActions := plan.safeShutdownActions;
      outputStatus := map e | e in OwnedOutputs() :: Unknown;
    }

    method Reset(storedPoints: nat)
      modifies this`outputActive, this`compliance, this`mokePlan, this`mokeOwnsOutput, this`mokeOwnedChannels,
               this`mokeStops, this`mokeDriven,
               this`shutdownDeadline, this`lastBoundaryPoints, this`watchdogTimedOut, this`referenceReady, this`state
      ensures outputActive == {} && compliance == {} && mokePlan == None && !mokeOwnsOutput && mokeOwnedChannels == {}
      ensures shutdownDeadline == None && lastBoundaryPoints == storedPoints && !watchdogTimedOut && state == Running
    {
      outputActive, compliance, mokePlan, mokeOwnsOutput, mokeOwnedChannels := {}, {}, None, false, {};
      shutdownDeadline, lastBoundaryPoints, watchdogTimedOut, referenceReady := None, storedPoints, false, false;
      state := Running;
    }

    ghost method OpenRecords()
      modifies this`archive, this`dispatches, this`times, this`rawSweeps, this`loopStarts, this`cleanupStarts,
               this`shutdowns,
               this`mokeDriven
      ensures archive == [] && dispatches == [] && times == [] && rawSweeps == 0
      ensures loopStarts == [] && cleanupStarts == [] && shutdowns == [] && mokeDriven == {}
    {
      archive, dispatches, times, rawSweeps, loopStarts, cleanupStarts, shutdowns, mokeDriven := [], [], [], 0, [], [], [], {};
    }

    /** Everything up to the last action of the plan. */
    method Measure(plan: ExecutionPlan, start: nat, storedPoints: nat, prelude: seq<PlanAction>, recovered: bool)
      returns (o: Outcome, completed: nat, stored: nat, attempted: set<string>, confirmed: set<Endpoint>, ghost b: Beginning)
      requires Compiled(plan) && policy.Accepted() && start <= |plan.actions| && forall a | a in prelude :: CompiledAction(a)
      requires resumeOutputScope == ControlledOutputEndpoints(plan.actions)
      requires OwnedOutputs() <= outputStatus.Keys && (forall e | e in outputStatus :: outputStatus[e] == Unknown)
      requires mokePlan.None?
      requires lastBoundaryPoints == storedPoints && archive == [] && dispatches == [] && times == [] && rawSweeps == 0 && loopStarts == []
      modifies this`now, this`stopRequested, this`watchdogTimedOut, this`archive, this`energized, this`outputActive,
               this`outputStatus, this`compliance, this`mokePlan, this`mokeOwnsOutput, this`mokeOwnedChannels,
               this`mokeStops, this`mokeDriven,
               this`referenceReady, this`dispatches, this`rawSweeps, this`shutdownDeadline, this`spent, this`times,
               this`state, this`lastBoundaryPoints, this`loopStarts
      ensures old(outputStatus).Keys <= outputStatus.Keys
      ensures LitOnly(dryRun, plan.actions, old(energized), energized)
      ensures mokeOwnsOutput && !old(mokeOwnsOutput) ==> mokeAvailable && !dryRun
      ensures old(MokeTracked()) ==> MokeTracked()
      ensures b.plan == plan && b.start == start && b.stored == storedPoints
      ensures b.inStep == (storedPoints == Checkpoints(plan.actions[..start]))
      ensures OnlyPrelude(b.books.dispatches) && b.books.rawSweeps == 0 && (prelude == [] ==> b.books.times == [])
      ensures Measured(policy, b, Records(), completed, stored, attempted)
      ensures o.Done? ==> completed == |plan.actions| && Measuring(policy, b, Records(), |plan.actions|, stored, attempted, confirmed)
      ensures o.Done? && start == 0 ==> mokePlan == HeldAfter(plan.actions, |plan.actions|)
      ensures Reserve() <= old(Reserve())
    {
      b := Beginning(plan, start, storedPoints, storedPoints == Checkpoints(plan.actions[..start]), Books());
      NothingLogged(plan, b.inStep, storedPoints);
      NothingHandedOver();
      o := Prepare(plan, start, prelude, recovered);
      b := b.(books := Books());
      OnRecordQuietly(plan, b.inStep, storedPoints, storedPoints, storedPoints, [], archive);
      completed, stored, attempted, confirmed := start, storedPoints, {}, {};
      if o.Raised? {
        MeasuringStarts(policy, b, Records());
        MeasuringIsMeasured(policy, b, Records(), start, storedPoints, {}, {});
      } else {
        o, completed, stored, attempted, confirmed := RunActions(plan, start, storedPoints, b);
      }
    }

    /** A successful run: everything was done and counted, and only held outputs are on. */
    ghost predicate Succeeded(b: Beginning, r: RunResult)
      reads this`archive, this`loopStarts, this`cleanupStarts, this`outputStatus, this`energized,
            this`requiredDevices, this`anritsuOwnsOutput, this`mokeOwnsOutput, this`shutdowns, this`shutdownBooks,
            this`dispatches,
            this`mokeDriven
    {
      && b.start <= |b.plan.actions| == r.completed
      && r.stored == b.stored + PointsIn(archive)
      && r.stored - b.stored == Checkpoints(b.plan.actions) - Checkpoints(b.plan.actions[..b.start])
      && r.state == (if HeldAtEnd(b.plan) != {} then Holding else if mokeOwnsOutput then Undetermined else Safe)
      && OutputsSettled(OwnedOutputs(), HeldAtEnd(b.plan), outputStatus, energized)
      && HeldAtEnd(b.plan) <= RetainedOutputs(b.plan.actions[b.start..])
      && shutdowns == [Shutdown(HeldAtEnd(b.plan), |dispatches|)]
      && AllHandedOver(b.plan.actions, b.start, |b.plan.actions|, dispatches)
      && (forall i: nat | b.start <= i < |b.plan.actions| && b.plan.actions[i].isFinally :: i in loopStarts <==> !b.plan.actions[i].faultOnly)
      && cleanupStarts == []
      && forall c | c in mokeDriven :: MokeVout(c) in HeldAtEnd(b.plan)
    }

    /** A run that faulted or was aborted: clean-up, and a last shutdown that held nothing, after everything else. */
    ghost predicate FailedSafely(plan: ExecutionPlan)
      reads this`loopStarts, this`cleanupStarts, this`outputStatus, this`energized, this`requiredDevices,
            this`anritsuOwnsOutput, this`mokeOwnsOutput, this`shutdowns, this`shutdownBooks, this`dispatches,
            this`state,
            this`tried, this`mokeStops, this`mokeDriven
    {
      && (forall i | i in loopStarts :: i < |plan.actions|)
      && cleanupStarts == Pending(plan.actions, NodeIds(plan.actions, loopStarts), 0)
      && shutdowns != [] && shutdowns[|shutdowns| - 1] == Shutdown({}, |dispatches|)
      && (state == Safe || state == Undetermined || state == Fault)
      && (state == Safe ==> !mokeOwnsOutput)
      && (state != Fault ==> OutputsSettled(OwnedOutputs(), {}, outputStatus, energized) && mokeDriven == {})
      && EveryoneServed()
    }

    /** The end of a measurement in which no action raised. */
    method FinishWell(plan: ExecutionPlan, ghost b: Beginning, completed: nat, stored: nat, ghost attempted: set<string>, confirmed: set<Endpoint>)
      returns (o: Outcome)
      requires Compiled(plan) && policy.Accepted() && b.plan == plan && MokeTracked() && OwnedOutputs() <= outputStatus.Keys
      requires OnlyPrelude(b.books.dispatches) && b.books.rawSweeps == 0 && cleanupStarts == [] && shutdowns == []
      requires completed == |plan.actions| && Measuring(policy, b, Records(), completed, stored, attempted, confirmed)
      modifies this`now, this`stopRequested, this`watchdogTimedOut, this`archive, this`energized, this`outputStatus,
               this`mokeOwnedChannels, this`mokeStops, this`mokeDriven, this`shutdownDeadline, this`spent,
               this`offers, this`tried, this`flushFailures,
               this`state, this`shutdowns, this`shutdownBooks
      ensures energized <= old(energized) && old(outputStatus).Keys <= outputStatus.Keys
      ensures o.Done? ==> Succeeded(b, RunResult(state, completed, stored, None))
      ensures Measured(policy, b, Records(), completed, stored, attempted)
      ensures o.Done? ==> RunKept(policy, b, completed, stored, archive, loopStarts, cleanupStarts, Books())
      ensures MokeTracked()
      ensures Reserve() <= old(Reserve())
    {
      hide QuietlyExtends, OutputsSettled, OwnedOutputs, Truthful, FieldUnproven, Measured, Measuring, RunKept,
           CleanedUp, OnlyPrelude,
           StepKeeps, Compiled, AllHandedOver, Checkpoints;
      MeasuringIsMeasured(policy, b, Records(), completed, stored, attempted, confirmed);
      o := Conclude(plan, confirmed);
      StepKeepsMeans(dryRun, old(outputStatus), old(energized), outputStatus, energized);
      MeasuredQuietly(policy, b, old(Records()), Records(), completed, stored, attempted);
      if o.Done? {
        MeasuredToTheEnd(policy, b, old(Records()), stored, attempted, confirmed, archive);
        NothingCleanedUp(dispatches);
        MeasuredIsKept(policy, b, old(Records()), completed, stored, attempted, archive, [], Books());
      }
    }

    method FinishBadly(plan: ExecutionPlan, ghost b: Beginning, ghost completed: nat, ghost stored: nat, attempted: set<string>)
      requires Compiled(plan) && b.plan == plan && MokeTracked() && OwnedOutputs() <= outputStatus.Keys && cleanupStarts == []
      requires OnlyPrelude(b.books.dispatches) && b.books.rawSweeps == 0
      requires Measured(policy, b, Records(), completed, stored, attempted)
      modifies this`now, this`stopRequested, this`watchdogTimedOut, this`archive, this`energized, this`outputActive,
               this`outputStatus, this`compliance, this`mokePlan, this`mokeOwnsOutput, this`mokeOwnedChannels,
               this`mokeStops, this`mokeDriven,
               this`referenceReady, this`dispatches, this`rawSweeps, this`shutdownDeadline, this`spent,
               this`cleanupStarts,
               this`offers, this`tried, this`flushFailures, this`state, this`shutdowns, this`shutdownBooks
      ensures energized <= old(energized)
      ensures mokeOwnsOutput && !old(mokeOwnsOutput) ==> mokeAvailable && !dryRun
      ensures FailedSafely(plan)
      ensures RunKept(policy, b, completed, stored, archive, loopStarts, cleanupStarts, Books())
      ensures Reserve() <= old(Reserve())
    {
      hide QuietlyExtends, OutputsSettled, OwnedOutputs, Truthful, FieldUnproven, Measuring, RunKept, CleanedUp,
           OnlyPrelude, Pending;
      EndUnsuccessfully(plan, attempted);
      assert cleanupStarts == Pending(plan.actions, attempted, 0);
      MeasuredIsKept(policy, b, old(Records()), completed, stored, attempted, archive, cleanupStarts, Books());
    }

    /** The end of a run: in success if neither the measurement nor its conclusion raised. */
    method Finish(plan: ExecutionPlan, ghost b: Beginning, o: Outcome, completed: nat, stored: nat, attempted: set<string>, confirmed: set<Endpoint>)
      returns (r: RunResult)
      requires Compiled(plan) && policy.Accepted() && b.plan == plan && MokeTracked() && OwnedOutputs() <= outputStatus.Keys
      requires OnlyPrelude(b.books.dispatches) && b.books.rawSweeps == 0 && cleanupStarts == [] && shutdowns == []
      requires Measured(policy, b, Records(), completed, stored, attempted)
      requires o.Done? ==> completed == |plan.actions| && Measuring(policy, b, Records(), completed, stored, attempted, confirmed)
      modifies this`now, this`stopRequested, this`watchdogTimedOut, this`archive, this`energized, this`outputActive,
               this`outputStatus, this`compliance, this`mokePlan, this`mokeOwnsOutput, this`mokeOwnedChannels,
               this`mokeStops, this`mokeDriven,
               this`referenceReady, this`dispatches, this`rawSweeps, this`shutdownDeadline, this`spent,
               this`cleanupStarts,
               this`offers, this`tried, this`flushFailures, this`state, this`shutdowns, this`shutdownBooks
      ensures energized <= old(energized)
      ensures mokeOwnsOutput && !old(mokeOwnsOutput) ==> mokeAvailable && !dryRun
      ensures r.state == state
      ensures RunKept(policy, b, r.completed, r.stored, archive, loopStarts, cleanupStarts, Books())
      ensures r.error.None? ==> Succeeded(b, r)
      ensures r.error.Some? ==> FailedSafely(plan)
      ensures Reserve() <= old(Reserve())
    {
      hide Measured, Measuring, RunKept, OutputsSettled, Truthful, StepKeeps;
      var concluded := o;
      if o.Done? {
        concluded := FinishWell(plan, b, completed, stored, attempted, confirmed);
      }
      if concluded.Done? {
        r := RunResult(state, completed, stored, None);
      } else {
        FinishBadly(plan, b, completed, stored, attempted);
        r := RunResult(state, completed, stored, Some(concluded.error));
      }
    }

    /** What a plan switches, or measures with, belongs to the run. */
    lemma SwitchedIsOwned(plan: ExecutionPlan)
      requires requiredDevices == plan.requiredDevices + RequiredDevicesFor(plan.actions)
      requires anritsuOwnsOutput == (AnritsuSg in ControlledOutputEndpoints(plan.actions))
      ensures forall a, e | a in plan.actions && SwitchedEndpoint(a.kind) == Some(e) ::
                e in OwnedOutputs() && e in ControlledOutputEndpoints(plan.actions)
      ensures forall a | a in plan.actions && (a.kind.AcquireSpectrum? || a.kind.AcquireReference?) :: Anritsu in requiredDevices
    {
      forall a, e | a in plan.actions && SwitchedEndpoint(a.kind) == Some(e)
        ensures e in OwnedOutputs() && e in ControlledOutputEndpoints(plan.actions)
      {
        SwitchNames(a.kind);
        assert e in ControlledOutputEndpoints(plan.actions);
        assert e.Owner() in RequiredDevicesFor(plan.actions);
      }
      forall a | a in plan.actions && (a.kind.AcquireSpectrum? || a.kind.AcquireReference?) ensures Anritsu in requiredDevices {
        assert Anritsu in DevicesOf(a.kind);
        assert Anritsu in RequiredDevicesFor(plan.actions);
      }
    }

    lemma SwitchNames(k: Kind)
      ensures SwitchedEndpoint(k).Some? ==>
                var e := SwitchedEndpoint(k).value; e in SWITCHED && e in EndpointsOf(k) && e.Owner() in DevicesOf(k)
    {
      if k.SetKeithleyOutput? {
        assert k.smu == SmuA || k.smu == SmuB;
      } else if k.SetRigolOutput? {
        assert k.rigol == Ch1 || k.rigol == Ch2;
      } else if k.SetAnritsuSgOutput? {
        assert AnritsuSg in EndpointsOf(k);
      }
    }

    method Start(plan: ExecutionPlan, storedPoints: nat)
      modifies this
      ensures energized == old(energized) && !mokeOwnsOutput && mokePlan.None?
      ensures requiredDevices == plan.requiredDevices + RequiredDevicesFor(plan.actions)
      ensures anritsuOwnsOutput == (AnritsuSg in ControlledOutputEndpoints(plan.actions))
      ensures resumeOutputScope == ControlledOutputEndpoints(plan.actions)
      ensures OwnedOutputs() <= outputStatus.Keys && forall e | e in outputStatus :: outputStatus[e] == Unknown
      ensures lastBoundaryPoints == storedPoints && archive == [] && dispatches == [] && times == [] && rawSweeps == 0
      ensures loopStarts == [] && cleanupStarts == [] && shutdowns == [] && MokeTracked()
      ensures spent == old(spent) && shutdownDeadline.None?
    {
      TakeOwnership(plan);
      Reset(storedPoints);
      OpenRecords();
    }

    /** The end of a successful run, read off the plan. */
    lemma SuccessMeans(b: Beginning, r: RunResult)
      requires Succeeded(b, r)
      ensures r.state == Holding <==> !dryRun && exists a :: a in b.plan.actions && a.completionOnly && a.retainedOutput.Some?
      ensures forall e | e in OwnedOutputs() ::
                && e in outputStatus && outputStatus[e] == (if e in energized then On else Off)
                && (e in energized <==> !dryRun && exists a :: a in b.plan.actions && a.completionOnly && a.retainedOutput == Some(e))
      ensures forall c | c in mokeDriven ::
                !dryRun && exists a :: a in b.plan.actions && a.completionOnly && a.retainedOutput == Some(MokeVout(c))
    {
      hide OwnedOutputs, HeldAtEnd, AllHandedOver;
      HeldMeans(b.plan);
      OnExactlyIfHeld(b.plan, HeldAtEnd(b.plan));
    }

    lemma FailureMeans(plan: ExecutionPlan)
      requires FailedSafely(plan)
      ensures EveryoneServed()
      ensures state != Fault ==> mokeDriven == {} && forall e | e in OwnedOutputs() :: e !in energized
    {
      hide OwnedOutputs, EveryoneServed, Pending;
    }

    /** The run once its records are open. */
    method RunStarted(plan: ExecutionPlan, start: nat, storedPoints: nat, prelude: seq<PlanAction>, recovered: bool)
      returns (r: RunResult, ghost b: Beginning)
      requires Compiled(plan) && policy.Accepted() && start <= |plan.actions| && forall a | a in prelude :: CompiledAction(a)
      requires resumeOutputScope == ControlledOutputEndpoints(plan.actions)
      requires OwnedOutputs() <= outputStatus.Keys && (forall e | e in outputStatus :: outputStatus[e] == Unknown)
      requires mokePlan.None? && MokeTracked() && !mokeOwnsOutput && shutdownDeadline.None?
      requires lastBoundaryPoints == storedPoints && archive == [] && dispatches == [] && times == [] && rawSweeps == 0
      requires loopStarts == [] && cleanupStarts == [] && shutdowns == []
      modifies this`now, this`stopRequested, this`watchdogTimedOut, this`archive, this`energized, this`outputActive,
               this`outputStatus, this`compliance, this`mokePlan, this`mokeOwnsOutput, this`mokeOwnedChannels,
               this`mokeStops,
               this`mokeDriven, this`referenceReady, this`dispatches, this`rawSweeps, this`shutdownDeadline,
               this`spent, this`times,
               this`state, this`lastBoundaryPoints, this`loopStarts, this`cleanupStarts, this`offers, this`tried,
               this`flushFailures, this`shutdowns, this`shutdownBooks
      ensures b.plan == plan && b.start == start && b.stored == storedPoints
      ensures b.inStep == (storedPoints == Checkpoints(plan.actions[..start])) && (prelude == [] ==> b.books.times == [])
      ensures RunKept(policy, b, r.completed, r.stored, archive, loopStarts, cleanupStarts, Books())
      ensures r.state == state
      ensures r.error.None? ==> Succeeded(b, r)
      ensures r.error.Some? ==> FailedSafely(plan)
      ensures LitOnly(dryRun, plan.actions, old(energized), energized) && (dryRun ==> !mokeOwnsOutput)
      ensures spent - old(spent) <= policy.shutdownTimeoutS
    {
      hide QuietlyExtends, Truthful, FieldUnproven, Measured, Measuring, OutputsSettled, OwnedOutputs, RunKept,
           OnlyPrelude, Succeeded, FailedSafely,
           EveryoneServed, TurnsOn, MokeTracked, LitOnly;
      var o, completed, stored, attempted, confirmed;
      o, completed, stored, attempted, confirmed, b := Measure(plan, start, storedPoints, prelude, recovered);
      ghost var lit := energized;
      r := Finish(plan, b, o, completed, stored, attempted, confirmed);
      LitFewer(dryRun, plan.actions, old(energized), lit, energized);
    }

    /**
     Executes a compiled plan from an action on, with so many points already stored. `b` describes the beginning of
     the measurement, after the recovery prelude.
     */
    method Run(plan: ExecutionPlan, start: nat, storedPoints: nat, prelude: seq<PlanAction>, recovered: bool)
      returns (r: Result<RunResult>, ghost b: Beginning)
      requires Compiled(plan) && policy.Accepted() && forall a | a in prelude :: CompiledAction(a)
      modifies this
      ensures r.Err? <==> start > |plan.actions| || storedPoints > plan.totalPoints
      ensures r.Err? ==> energized == old(energized) && archive == old(archive) && dispatches == old(dispatches)
      ensures r.Ok? ==> b.plan == plan && b.start == start <= |plan.actions| && b.stored == storedPoints
      ensures r.Ok? ==> b.inStep == (storedPoints == Checkpoints(plan.actions[..start])) && (prelude == [] ==> b.books.times == [])
      ensures r.Ok? ==> RunKept(policy, b, r.value.completed, r.value.stored, archive, loopStarts, cleanupStarts, Books())
      ensures r.Ok? ==> r.value.state == state
      ensures r.Ok? && r.value.error.None? ==> Succeeded(b, r.value)
      ensures r.Ok? && r.value.error.Some? ==> FailedSafely(plan)
      ensures r.Ok? && dryRun ==> energized <= old(energized) && !mokeOwnsOutput
      ensures r.Ok? ==> forall a, e | a in plan.actions && SwitchedEndpoint(a.kind) == Some(e) :: e in OwnedOutputs()
      ensures r.Ok? ==> forall a | a in plan.actions && (a.kind.AcquireSpectrum? || a.kind.AcquireReference?) :: Anritsu in requiredDevices
      ensures r.Ok? ==> forall e | e in energized && e !in old(energized) :: !dryRun && exists a :: a in plan.actions && e in TurnsOn(a.kind)
      ensures r.Ok? && r.value.error.None? ==>
        (state == Holding <==> !dryRun && exists a :: a in plan.actions && a.completionOnly && a.retainedOutput.Some?)
      ensures r.Ok? && r.value.error.None? ==> forall e | e in OwnedOutputs() ::
                && e in outputStatus && outputStatus[e] == (if e in energized then On else Off)
                && (e in energized <==> !dryRun && exists a :: a in plan.actions && a.completionOnly && a.retainedOutput == Some(e))
      ensures r.Ok? && r.value.error.None? ==> forall c | c in mokeDriven ::
                !dryRun && exists a :: a in plan.actions && a.completionOnly && a.retainedOutput == Some(MokeVout(c))
      ensures r.Ok? && r.value.error.Some? && state != Fault ==> mokeDriven == {} && forall e | e in OwnedOutputs() :: e !in energized
      ensures r.Ok? && r.value.error.Some? ==> EveryoneServed()
      ensures r.Ok? ==> spent - old(spent) <= policy.shutdownTimeoutS
    {
      hide QuietlyExtends, Truthful, FieldUnproven, OutputsSettled, OwnedOutputs, RunKept, OnlyPrelude, Succeeded,
           FailedSafely,
           EveryoneServed, TurnsOn, MokeTracked;
      b := Beginning(plan, start, storedPoints, false, Books());
      if start > |plan.actions| || storedPoints > plan.totalPoints {
        return Err(ExecutionError), b;
      }
      Start(plan, storedPoints);
      SwitchedIsOwned(plan);
      var end;
      end, b := RunStarted(plan, start, storedPoints, prelude, recovered);
      if end.error.None? {
        SuccessMeans(b, end);
      } else {
        FailureMeans(plan);
      }
      return Ok(end), b;
    }
  }
}
