/**
 `DirectEngine::run_inner` (crates/ao-next-core/src/engine.rs). The adapter, the effect
 broker, the verifier, the clock and the failures of the disk are oracles: their results are
 arbitrary. A crash may happen inside any call to one of them, which loses everything but the
 journal and the effects already executed.

 Methods that only pass a promise on hide the predicates it is made of.
 */
module Engine {
  import opened Words
  import opened Wrappers
  import Journal
  import opened Recorders
  import opened CheckpointJournal
  import opened JournalHistory
  import opened RunLifecycle
  import opened EngineTrace

  const MAX_EFFECTS_PER_TURN: nat := 64

  // ----- oracles -----

  method AnyFault() returns (fault: Fault) {
    fault := *;
  }

  method AnyBool() returns (b: bool) {
    b := *;
  }

  /** One recorder call, with the failure it meets. */
  datatype JournalCall = JournalCall(request: RunRequest, op: Operation, fault: Fault)

  /**
   The worker. `issued` remembers the turns it has returned. While it answers, a worker may record
   what it does in the journal of the run, as the live worker does with its provider capture.
   */
  class Adapter {
    var issued: seq<AdapterTurn>

    constructor () {
      issued := [];
    }

    method Identity() returns (identity: AdapterIdentity) {
      identity := *;
    }

    /** Any number of recorder calls, each with any fault, and then any answer; a crash ends the process. */
    method ExecuteTurn(
      turnIndex: nat, repairAttempt: nat, observations: seq<EffectObservation>, journal: CheckpointJournal?)
      returns (r: Outcome<AdapterTurn>)
      requires journal != null ==> LogSound(journal.files)
      modifies this, if journal == null then {} else {journal}
      ensures issued == if r.Done? then old(issued) + [r.value] else old(issued)
      ensures journal != null ==>
                && LogSound(journal.files) && Remembers(journal.files, old(journal.files))
                && journal.terminals == old(journal.terminals)
    {
      var calls: seq<JournalCall> := *;
      if journal != null {
        for i := 0 to |calls|
          invariant LogSound(journal.files) && Remembers(journal.files, old(journal.files))
          invariant journal.terminals == old(journal.terminals) && issued == old(issued)
        {
          var recorded := Record(journal, calls[i]);
          if recorded.Crashed? { return Crashed; }
        }
      }
      r := *;
      if r.Done? { issued := issued + [r.value]; }
    }

    static method Record(journal: CheckpointJournal, call: JournalCall) returns (r: Outcome<()>)
      requires LogSound(journal.files)
      modifies journal`identity, journal`files
      ensures LogSound(journal.files) && Remembers(journal.files, old(journal.files))
    {
      ghost var d := journal.Contents();
      r := Call(journal, call.request, call.op, call.fault);
      RecordRemembers(d, call.request, call.op, call.fault);
    }

    /** The recorder method that carries an operation out. */
    static method Call(journal: CheckpointJournal, request: RunRequest, op: Operation, fault: Fault)
      returns (r: Outcome<()>)
      modifies journal`identity, journal`files
      ensures (journal.Contents(), r) == Perform(old(journal.Contents()), request, op, fault)
    {
      hide Perform;
      match op {
        case ProviderIntent(prepared, authority) =>
          r := journal.RecordProviderRequestIntent(request, prepared, authority, fault);
        case ProcessStarted(invocation) => r := journal.RecordProviderProcessStarted(request, invocation, fault);
        case OutputRetained(raw) => r := journal.RecordProviderOutputRetained(request, raw, fault);
        case CapturePublished(index) => r := journal.RecordProviderCapturePublished(request, index, fault);
        case CaptureVerified(index) => r := journal.RecordProviderCaptureVerified(request, index, fault);
        case TurnNormalized(turn) => r := journal.RecordAdapterTurnNormalized(request, turn, fault);
        case BeginEffect(effect) => r := journal.RecordEffectIntent(request, effect, fault);
        case FinishEffect(effect, observation) =>
          r := journal.RecordEffectCompletion(request, effect, observation, fault);
        case BeginVerification => r := journal.BeginVerification(request, fault);
        case RecordVerifier(report) => r := journal.RecordVerifier(request, report, fault);
      }
    }
  }

  /** The effect broker. `executed` remembers the ids it has begun to execute. */
  class Broker {
    var executed: seq<string>

    constructor ()
      ensures executed == []
    {
      executed := [];
    }

    method Authorize(effect: EffectRequest) returns (granted: bool) {
      granted := *;
    }

    method ExecuteAuthorized(effect: EffectRequest) returns (r: Outcome<EffectOutput>)
      modifies this
      ensures executed == old(executed) + [effect.effectId]
    {
      executed := executed + [effect.effectId];
      r := *;
    }
  }

  class Verifier {
    constructor () {
    }

    method Check(request: RunRequest) returns (r: Outcome<VerificationOutcome>)
      ensures !r.Refused?
    {
      r := *;
      if r.Refused? { r := Crashed; }
    }
  }

  /** How a run goes on after one action. */
  datatype Flow = Continue | NextTurn | Stop(result: RunResult)

  // ----- what a durable run does to the world -----

  /** The effects executed from position `n` on are new to the journal and durable now. */
  predicate FreshlyExecuted(executed: seq<string>, n: nat, before: seq<EventFile>, after: seq<EventFile>)
    requires LogSound(before) && LogSound(after)
  {
    && n <= |executed|
    && (forall k | n <= k < |executed| ::
          executed[k] in RecordedEffects(after) && executed[k] !in RecordedEffects(before))
  }

  /** Every observation in the trace is the durable completion of its effect. */
  predicate ObservationsHeld(events: seq<EngineEvent>, files: seq<EventFile>)
    requires LogSound(files)
  {
    forall i | 0 <= i < |events| && events[i].kind.EffectObserved? ::
      Held(events[i].kind.observation, files)
  }

  predicate Held(observation: EffectObservation, files: seq<EventFile>)
    requires LogSound(files)
  {
    && observation.effectId in RecordedEffects(files)
    && RecordedEffects(files)[observation.effectId].completion == Some(observation)
  }

  lemma FreshlyKept(executed: seq<string>, n: nat, start: seq<EventFile>, before: seq<EventFile>, after: seq<EventFile>)
    requires LogSound(start) && LogSound(before) && LogSound(after)
    requires Remembers(after, before) && FreshlyExecuted(executed, n, start, before)
    ensures FreshlyExecuted(executed, n, start, after)
  {
  }

  lemma FreshlyPush(executed: seq<string>, n: nat, before: seq<EventFile>, after: seq<EventFile>, id: string)
    requires LogSound(before) && LogSound(after) && FreshlyExecuted(executed, n, before, after)
    requires id in RecordedEffects(after) && id !in RecordedEffects(before)
    ensures FreshlyExecuted(executed + [id], n, before, after)
  {
    hide LogSound, RecordedEffects;
  }

  /** A numbered trace of a run that has not ended and has met no effect twice. */
  predicate Open(events: seq<EngineEvent>) {
    SequenceNumbers(events) && OnceEach(events) && forall i | 0 <= i < |events| :: !events[i].kind.RunEnded?
  }

  lemma OpenPush(events: seq<EngineEvent>, e: EngineEvent)
    requires Open(events) && e.sequence == |events| && !e.kind.RunEnded? && NewIn(events, e.kind)
    ensures Open(events + [e])
  {
    OnceEachPush(events, e);
  }

  /** All admissions come before the first failed verification, and that one durably began. */
  predicate EffectsFirst(events: seq<EngineEvent>, files: seq<EventFile>)
    requires LogSound(files)
  {
    AdmissionsFirst(events) && (Tried(events) ==> VerificationBegun(files))
  }

  lemma EffectsFirstPush(events: seq<EngineEvent>, e: EngineEvent, files: seq<EventFile>)
    requires LogSound(files) && EffectsFirst(events, files)
    requires e.kind.EffectAdmitted? ==> !VerificationBegun(files)
    requires e.kind.VerificationFailed? ==> VerificationBegun(files)
    ensures EffectsFirst(events + [e], files)
  {
    AdmissionsFirstPush(events, e);
  }

  lemma EffectsFirstKept(events: seq<EngineEvent>, before: seq<EventFile>, after: seq<EventFile>)
    requires LogSound(before) && LogSound(after) && Remembers(after, before) && EffectsFirst(events, before)
    ensures EffectsFirst(events, after)
  {
  }

  /** The effects executed from position `n` on are distinct. */
  predicate DistinctFrom(executed: seq<string>, n: nat) {
    n <= |executed| && forall j, k | n <= j < k < |executed| :: executed[j] != executed[k]
  }

  lemma DistinctPush(executed: seq<string>, n: nat, id: string)
    requires DistinctFrom(executed, n) && id !in executed[n..]
    ensures DistinctFrom(executed + [id], n)
  {
    forall k | n <= k < |executed|
      ensures executed[k] != id
    {
      assert executed[k] == executed[n..][k - n];
    }
  }

  lemma ObservationsKept(events: seq<EngineEvent>, before: seq<EventFile>, after: seq<EventFile>)
    requires LogSound(before) && LogSound(after) && Remembers(after, before) && ObservationsHeld(events, before)
    ensures ObservationsHeld(events, after)
  {
  }

  lemma ObservationHeld(events: seq<EngineEvent>, e: EngineEvent, files: seq<EventFile>)
    requires LogSound(files) && ObservationsHeld(events, files)
    requires e.kind.EffectObserved? && Held(e.kind.observation, files)
    ensures ObservationsHeld(events + [e], files)
  {
  }

  lemma ObservationsPush(events: seq<EngineEvent>, e: EngineEvent, files: seq<EventFile>)
    requires LogSound(files) && ObservationsHeld(events, files) && !e.kind.EffectObserved?
    ensures ObservationsHeld(events + [e], files)
  {
  }

  /** The locals of one run. */
  class Session {
    const request: RunRequest
    const identity: AdapterIdentity
    const journal: CheckpointJournal?
    const broker: Broker
    const adapter: Adapter
    const verifier: Verifier
    const n7Authority: bool
    const lifecycle: Lifecycle
    const usage: TokenUsage
    var events: seq<EngineEvent>
    var turns: nat
    var repairAttempts: nat
    var report: Option<Digest>
    var effectIds: set<string>
    var observations: seq<EffectObservation>

    ghost const startFiles: seq<EventFile>
    ghost const startExecuted: seq<string>
    ghost const startIssued: seq<AdapterTurn>
    ghost var taken: seq<AdapterTurn>

    constructor (request: RunRequest, identity: AdapterIdentity, journal: CheckpointJournal?, broker: Broker,
                 adapter: Adapter, verifier: Verifier, n7Authority: bool)
      requires journal != null ==> LogSound(journal.files)
      ensures this.request == request && this.identity == identity && this.journal == journal
      ensures this.broker == broker && this.adapter == adapter && this.verifier == verifier
      ensures this.n7Authority == n7Authority
      ensures fresh(lifecycle) && fresh(usage) && lifecycle.state == Received
      ensures startExecuted == broker.executed && startIssued == adapter.issued
      ensures journal != null ==> startFiles == journal.files
      ensures events == [] && turns == 0 && Ready()
    {
      this.request, this.identity, this.journal := request, identity, journal;
      this.broker, this.adapter, this.verifier, this.n7Authority := broker, adapter, verifier, n7Authority;
      lifecycle := new Lifecycle();
      usage := new TokenUsage();
      events, turns, repairAttempts, report, effectIds, observations := [], 0, 0, None, {}, [];
      startFiles := if journal == null then [] else journal.files;
      startExecuted := broker.executed;
      startIssued := adapter.issued;
      taken := [];
    }

    /** What a run has promised so far, whatever becomes of it. */
    ghost predicate DurableSound()
      reads this`events, journal, broker
    {
      && startExecuted <= broker.executed && DistinctFrom(broker.executed, |startExecuted|)
      && (journal != null ==>
            && LogSound(startFiles) && LogSound(journal.files) && Remembers(journal.files, startFiles)
            && FreshlyExecuted(broker.executed, |startExecuted|, startFiles, journal.files)
            && ObservationsHeld(events, journal.files) && EffectsFirst(events, journal.files)
            && (VerificationBegun(startFiles) ==> broker.executed == startExecuted))
    }

    /** What holds wherever a run may end. */
    ghost predicate Base()
      reads this`events, this`turns, this`repairAttempts, journal, broker
    {
      && Open(events)
      && turns <= request.limits.maxTurns
      && repairAttempts <= request.limits.maxRepairAttempts
      && broker.executed == startExecuted + AdmittedIds(events)
      && DurableSound()
    }

    /** What holds between two actions. */
    ghost predicate Ready()
      reads this`events, this`turns, this`repairAttempts, this`effectIds, this`observations, this`taken
      reads journal, broker, adapter, usage
    {
      && Base()
      && Covered(events, effectIds)
      && TraceReady(events, observations, repairAttempts)
      && adapter.issued == startIssued + taken
      && usage.Value() == SumUsage(taken)
    }

    method PushEvent(kind: EngineEventKind, byWorker: bool)
      modifies this`events
      ensures events == old(events) + [EngineEvent(
                |old(events)|, lifecycle.state, kind, if byWorker then Some(identity.workerId) else None)]
      ensures AdmittedIds(events) ==
              AdmittedIds(old(events)) + (if kind.EffectAdmitted? then [kind.effectId] else [])
    {
      AdmittedExtend(events, EngineEvent(
        |events|, lifecycle.state, kind, if byWorker then Some(identity.workerId) else None));
      events := events + [EngineEvent(
        |events|, lifecycle.state, kind, if byWorker then Some(identity.workerId) else None)];
    }

    /** Adds an event that is neither an admission nor the end of the run. */
    method PushKept(kind: EngineEventKind, byWorker: bool)
      requires Base() && !kind.RunEnded? && !kind.EffectAdmitted?
      requires kind.EffectObserved? ==> NewIn(events, kind)
      requires journal != null && kind.EffectObserved? ==> Held(kind.observation, journal.files)
      requires journal != null && kind.VerificationFailed? ==> VerificationBegun(journal.files)
      modifies this`events
      ensures Base()
      ensures events == old(events) + [EngineEvent(
                |old(events)|, lifecycle.state, kind, if byWorker then Some(identity.workerId) else None)]
    {
      hide Open, AdmittedIds, FreshlyExecuted, ObservationsHeld, Held, LogSound, Remembers, EffectsFirst,
           VerificationBegun, DistinctFrom;
      ghost var before := events;
      PushEvent(kind, byWorker);
      assert NewIn(before, kind);
      OpenPush(before, events[|before|]);
      if journal != null {
        EffectsFirstPush(before, events[|before|], journal.files);
        if kind.EffectObserved? {
          ObservationHeld(before, events[|before|], journal.files);
        } else {
          ObservationsPush(before, events[|before|], journal.files);
        }
      }
    }

    // ----- ending a run -----

    /** Being killed makes no claim of its own. */
    lemma KilledIsSound()
      requires Base()
      ensures ResultSound(Killed)
    {
    }

    /** What must hold to end with a pass. */
    ghost predicate PassReady()
      requires DurableSound()
      reads this`events, this`repairAttempts, this`report, this`taken, usage, adapter, journal, broker
    {
      && report.Some? && PassTrace(events, repairAttempts, report.value)
      && WithinLimits(usage.Value(), request.limits)
      && adapter.issued == startIssued + taken && usage.Value() == SumUsage(taken)
      && (journal != null ==> ReportHeld(report.value, journal.files))
    }

    /** The turns of this run, counted together, do not fit the token limit. */
    ghost predicate Overspent()
      reads this`taken, adapter
    {
      adapter.issued == startIssued + taken && Overrun(SumUsage(taken), request.limits)
    }

    /** A result that keeps every promise. */
    ghost predicate ResultSound(r: RunResult)
      reads this`events, this`taken, journal, broker, adapter
    {
      && DurableSound()
      && (r.Finished? ==>
            && OutcomeSound(r.outcome, request.limits)
            && broker.executed == startExecuted + AdmittedIds(r.outcome.events)
            && (journal != null ==>
                  && ObservationsHeld(r.outcome.events, journal.files)
                  && AdmissionsFirst(r.outcome.events))
            && (r.outcome.failureCode == Some(TokenLimit) ==> Overspent())
            && (r.outcome.terminalState == Passed ==>
                  && adapter.issued == startIssued + taken && r.outcome.metrics.usage == SumUsage(taken)
                  && r.outcome.verifierReport.Some?
                  && (journal != null ==> ReportHeld(r.outcome.verifierReport.value, journal.files))))
    }

    /** The counters and the trace bear out the code that the run ends with. */
    ghost predicate Explained(code: Code)
      reads this`events, this`turns, this`repairAttempts, this`taken, usage, adapter
    {
      && Explains(code, events, Metrics(turns, repairAttempts, usage.Value()), request.limits)
      && (code.TokenLimit? ==> Overspent())
    }

    /** The run ended here, with this code. */
    ghost predicate EndedWith(flow: Flow, code: Code) {
      && flow.Stop? && flow.result.Finished?
      && flow.result.outcome.terminalState == StateOfCode(code)
      && flow.result.outcome.failureCode == if code.VerifiedPass? then None else Some(code)
    }

    /** `transition_and_finish`; the internal transition failure cannot happen. */
    method Finish(terminal: RunState, code: Code) returns (r: RunResult)
      requires Base() && terminal == StateOfCode(code) && Permitted(lifecycle.state, terminal)
      requires terminal == Passed ==> PassReady()
      requires code != InvalidInternalTransition && Explained(code)
      modifies this`events, lifecycle
      ensures ResultSound(r) && EndedWith(Stop(r), code)
    {
      hide DurableSound, AdmittedIds;
      var ok := lifecycle.Transition(terminal);
      if !ok { assert false; }
      r := Conclude(terminal, code);
    }

    /** Ends the run without a pass. */
    method StopRun(terminal: RunState, code: Code) returns (flow: Flow)
      requires Base() && terminal == StateOfCode(code) && Permitted(lifecycle.state, terminal)
      requires code != VerifiedPass && code != InvalidInternalTransition && Explained(code)
      modifies this`events, lifecycle
      ensures EndedWith(flow, code) && ResultSound(flow.result)
    {
      var r := Finish(terminal, code);
      return Stop(r);
    }

    /** Ends the run with a code that makes no claim. */
    method StopPlainly(terminal: RunState, code: Code) returns (flow: Flow)
      requires Base() && terminal == StateOfCode(code) && Permitted(lifecycle.state, terminal)
      requires code != VerifiedPass && code != InvalidInternalTransition && !MakesClaim(code)
      requires !code.TokenLimit?
      modifies this`events, lifecycle
      ensures EndedWith(flow, code) && ResultSound(flow.result)
    {
      flow := StopRun(terminal, code);
    }

    method PushEnd(terminal: RunState)
      requires Base()
      modifies this`events
      ensures DurableSound() && broker.executed == startExecuted + AdmittedIds(events)
      ensures journal != null ==>
                LogSound(journal.files) && ObservationsHeld(events, journal.files) && AdmissionsFirst(events)
      ensures events == old(events) + [
                EngineEvent(|old(events)|, terminal, RunEnded(terminal), Some(identity.workerId))]
    {
      hide Open, AdmittedIds, FreshlyExecuted, ObservationsHeld, LogSound, Remembers, VerificationBegun,
           AdmissionsFirst, Tried, DistinctFrom;
      ghost var before := events;
      AdmittedExtend(events, EngineEvent(|events|, terminal, RunEnded(terminal), Some(identity.workerId)));
      events := events + [EngineEvent(|events|, terminal, RunEnded(terminal), Some(identity.workerId))];
      if journal != null {
        ObservationsPush(before, events[|before|], journal.files);
        EffectsFirstPush(before, events[|before|], journal.files);
      }
    }

    /** Pushes the terminal event and assembles the outcome; a refused start uses it directly. */
    method Conclude(terminal: RunState, code: Code) returns (r: RunResult)
      requires Base() && terminal == StateOfCode(code)
      requires terminal == Passed ==> PassReady()
      requires code != InvalidInternalTransition && Explained(code)
      modifies this`events
      ensures ResultSound(r) && EndedWith(Stop(r), code)
    {
      hide DurableSound, AdmittedIds, LogSound, ObservationsHeld, ReportHeld, PassTrace, SumUsage, OutcomeSound,
           Explains, CompletedObservations, Open, WithinLimits, Overspent, AdmissionsFirst;
      ghost var before := events;
      PushEnd(terminal);
      r := Finished(RunOutcome(
        terminal, identity, Metrics(turns, repairAttempts, usage.Value()), events,
        CompletedObservations(events), report, if code == VerifiedPass then None else Some(code)));
      EndedTrace(r.outcome, before, request.limits);
    }

    // ----- durable steps -----

    /** One step of the journal keeps the durable promises, whatever fault it meets. */
    twostate lemma JournalStepSound(before: seq<EventFile>)
      requires journal != null && old(DurableSound()) && old(journal.files) == before
      requires LogSound(journal.files) && Remembers(journal.files, before)
      requires events == old(events) && broker.executed == old(broker.executed)
      ensures DurableSound()
    {
      RemembersChain(startFiles, before, journal.files);
      FreshlyKept(broker.executed, |startExecuted|, startFiles, before, journal.files);
      ObservationsKept(events, before, journal.files);
      EffectsFirstKept(events, before, journal.files);
    }

    method NoteIntent(effect: EffectRequest) returns (r: Outcome<()>)
      requires journal != null && DurableSound()
      modifies journal`identity, journal`files
      ensures DurableSound() && Remembers(journal.files, old(journal.files))
      ensures r.Done? ==>
                && effect.effectId !in RecordedEffects(old(journal.files))
                && effect.effectId in RecordedEffects(journal.files)
                && !VerificationBegun(journal.files)
    {
      var fault := AnyFault();
      ghost var d := journal.Contents();
      r := journal.RecordEffectIntent(request, effect, fault);
      RecordRemembers(d, request, BeginEffect(effect), fault);
      if r.Done? { IntentBecomesDurable(d, request, effect, fault); }
      JournalStepSound(d.files);
    }

    method NoteCompletion(effect: EffectRequest, observation: EffectObservation) returns (r: Outcome<()>)
      requires journal != null && DurableSound()
      modifies journal`identity, journal`files
      ensures DurableSound() && Remembers(journal.files, old(journal.files))
      ensures r.Done? ==> Held(observation, journal.files)
    {
      var fault := AnyFault();
      ghost var d := journal.Contents();
      r := journal.RecordEffectCompletion(request, effect, observation, fault);
      RecordRemembers(d, request, FinishEffect(effect, observation), fault);
      if r.Done? { CompletionBecomesDurable(d, request, effect, observation, fault); }
      JournalStepSound(d.files);
    }

    method NoteVerificationStart() returns (r: Outcome<()>)
      requires journal != null && DurableSound()
      modifies journal`identity, journal`files
      ensures DurableSound() && Remembers(journal.files, old(journal.files))
    {
      var fault := AnyFault();
      ghost var d := journal.Contents();
      r := journal.BeginVerification(request, fault);
      RecordRemembers(d, request, Operation.BeginVerification, fault);
      JournalStepSound(d.files);
    }

    method NoteReport(digest: Digest) returns (r: Outcome<()>)
      requires journal != null && DurableSound()
      modifies journal`identity, journal`files
      ensures DurableSound() && Remembers(journal.files, old(journal.files))
      ensures r.Done? ==> ReportHeld(digest, journal.files)
    {
      var fault := AnyFault();
      ghost var d := journal.Contents();
      r := journal.RecordVerifier(request, digest, fault);
      RecordRemembers(d, request, Operation.RecordVerifier(digest), fault);
      if r.Done? { ReportBecomesDurable(d, request, digest, fault); }
      JournalStepSound(d.files);
    }

    /** Records the normalised turn when this journal belongs to a provider capture. */
    method NoteTurn(digest: Digest) returns (r: Outcome<()>)
      requires journal != null && DurableSound()
      modifies journal`identity, journal`files
      ensures DurableSound() && Remembers(journal.files, old(journal.files))
      ensures r.Done? ==> TurnHeld(digest, journal.files)
    {
      hide EffectsFirst, DistinctFrom, FreshlyExecuted, ObservationsHeld, LogSound, Journal.Replay;
      var fault := AnyFault();
      ghost var d := journal.Contents();
      BindKeepsLog(d, request, fault);
      var read := journal.Lifecycle(request, fault);
      if read.Refused? { return Refused(read.error); }
      if read.Crashed? { return Crashed; }
      ReadableIsDurable(journal.files);
      if read.value.provider.preparedRunDigest.None? { return Done(()); }
      fault := AnyFault();
      ghost var d1 := journal.Contents();
      r := journal.RecordAdapterTurnNormalized(request, digest, fault);
      RecordRemembers(d1, request, TurnNormalized(digest), fault);
      if r.Done? { TurnBecomesDurable(d1, request, digest, fault); }
      JournalStepSound(d.files);
    }

    /** The durable states of a turn's effects, by id. */
    method TurnStates(effects: seq<EffectRequest>) returns (r: Outcome<map<string, EffectState>>)
      requires journal != null && DurableSound()
      modifies journal`identity
      ensures DurableSound() && journal.files == old(journal.files)
      ensures r.Done? ==> StatesHeld(r.value, journal.files)
    {
      hide EffectsFirst, VerificationBegun, DistinctFrom, Covered, Remembers;
      var fault := AnyFault();
      ghost var d := journal.Contents();
      BindKeepsLog(d, request, fault);
      var read := journal.EffectStates(request, effects, fault);
      if read.Refused? { return Refused(read.error); }
      if read.Crashed? { return Crashed; }
      var states: map<string, EffectState> := map[];
      for i := 0 to |effects|
        invariant StatesHeld(states, journal.files)
      {
        RecordedStatesHeld(journal.files, effects[i].effectId);
        states := states[effects[i].effectId := read.value[i]];
      }
      return Done(states);
    }

    // ----- one action -----

    function Journals(): set<object> {
      if journal == null then {} else {journal}
    }

    /** Nothing the journal knew is lost, and its terminal files are not touched. */
    twostate predicate JournalKept()
      reads journal
    {
      journal != null ==>
        && LogSound(old(journal.files)) && LogSound(journal.files)
        && Remembers(journal.files, old(journal.files))
        && journal.terminals == old(journal.terminals)
    }

    /** A run that stopped without another call on the journal kept it. */
    twostate lemma StoppedKept(r: RunResult)
      requires ResultSound(r)
      requires journal != null ==> journal.files == old(journal.files) && journal.terminals == old(journal.terminals)
      ensures JournalKept()
    {
    }

    method PerformEffect(effect: EffectRequest, state: Option<EffectState>, outputDigest: EffectOutput -> Digest)
      returns (flow: Flow)
      requires Ready() && lifecycle.state == Running
      requires journal != null ==> StateHeld(effect.effectId, state, journal.files)
      modifies this`events, this`effectIds, this`observations, lifecycle, broker, Journals()
      ensures JournalKept()
      ensures flow.Continue? ==> Ready() && lifecycle.state == Running
      ensures flow.Stop? ==> ResultSound(flow.result)
      ensures !flow.NextTurn?
    {
      hide Open, FreshlyExecuted, ObservationsHeld, ResultSound, TraceReady, AdmittedIds, EffectsFirst,
           VerificationBegun, DistinctFrom, Covered, LogSound, RecordedEffects, StateHeld;
      if effect.runId != request.runId {
        flow := Deny(effect.effectId, EffectRunIdentityMismatch);
        return;
      }
      if effect.effectId in effectIds {
        flow := Deny(effect.effectId, DuplicateEffect);
        return;
      }
      CoveredMore(events, effectIds, effect.effectId);
      effectIds := effectIds + {effect.effectId};
      if journal != null && state != Some(Fresh) {
        flow := Resume(effect.effectId, state);
        return;
      }
      var granted := broker.Authorize(effect);
      if !granted {
        flow := Deny(effect.effectId, EffectNotAuthorized);
        return;
      }
      flow := ExecuteEffect(effect, outputDigest);
    }

    method Deny(id: string, code: Code) returns (flow: Flow)
      requires Base() && lifecycle.state == Running
      requires code.EffectRunIdentityMismatch? || code.DuplicateEffect? || code.EffectNotAuthorized?
      modifies this`events, lifecycle
      ensures flow.Stop? && ResultSound(flow.result)
    {
      hide Base, OutcomeSound;
      MarkDenied(id);
      flow := StopRun(Denied, code);
    }

    method MarkDenied(id: string)
      requires Base()
      modifies this`events
      ensures Base() && events != [] && events[|events| - 1].kind.EffectDenied?
    {
      hide Base;
      PushKept(EffectDenied(id), true);
    }

    /** An effect the journal already knows is never executed: it is unknown, or its result is replayed. */
    method Resume(id: string, state: Option<EffectState>) returns (flow: Flow)
      requires journal != null && Ready() && lifecycle.state == Running && state != Some(Fresh)
      requires StateHeld(id, state, journal.files) && Untouched(id)
      modifies this`events, this`observations, lifecycle
      ensures state.None? ==> EndedWith(flow, JournalFailure)
      ensures state == Some(Unknown) ==> EndedWith(flow, EffectCompletionUnknown)
      ensures state.Some? && state.value.Completed? ==>
                && flow.Continue? && observations == old(observations) + [state.value.observation]
                && events == old(events) + [EngineEvent(
                     |old(events)|, lifecycle.state, EffectObserved(state.value.observation), Some(identity.workerId))]
      ensures flow.Continue? ==> Ready() && lifecycle.state == Running
      ensures flow.Stop? ==> ResultSound(flow.result)
      ensures !flow.NextTurn?
    {
      hide ResultSound, Base, OutcomeSound, TraceReady, RecordedEffects, EffectsFirst, VerificationBegun,
           DistinctFrom, Covered, Remembers;
      match state
      case None =>
        flow := StopPlainly(Failed, JournalFailure);
      case Some(Unknown) =>
        flow := StopPlainly(Interrupted, EffectCompletionUnknown);
      case Some(Completed(observation)) =>
        PushReplayed(observation);
        flow := Continue;
    }

    /** The effect's id is taken, and the trace does not speak of it yet. */
    ghost predicate Untouched(id: string)
      reads this`events, this`effectIds
    {
      id in effectIds && Unmentioned(events, id)
    }

    /** The effect has a durable intent that is new in this run, and no verification has begun. */
    ghost predicate MayExecute(id: string)
      requires DurableSound()
      reads this`events, journal, broker
    {
      journal != null ==>
        && id in RecordedEffects(journal.files) && id !in RecordedEffects(startFiles)
        && !VerificationBegun(journal.files)
    }

    /** Rechecks the authority and records the intent. */
    method AdmitEffect(effect: EffectRequest) returns (flow: Flow)
      requires Ready() && lifecycle.state == Running
      modifies this`events, lifecycle, Journals()
      ensures JournalKept()
      ensures flow.Continue? ==> Ready() && lifecycle.state == Running && MayExecute(effect.effectId)
      ensures flow.Continue? ==> events == old(events)
      ensures flow.Continue? && journal != null ==>
                && effect.effectId !in RecordedEffects(old(journal.files))
                && effect.effectId in RecordedEffects(journal.files)
      ensures flow.Stop? ==> ResultSound(flow.result)
      ensures !flow.NextTurn?
    {
      hide ResultSound, LogSound, EffectsFirst, VerificationBegun, DistinctFrom, Covered;
      var expired := AnyBool();
      if n7Authority && expired {
        flow := StopPlainly(Denied, ExecutionAuthorityNotCurrent);
        return;
      }
      flow := Continue;
      if journal != null { flow := RecordIntent(effect); }
    }

    method RecordIntent(effect: EffectRequest) returns (flow: Flow)
      requires journal != null && Ready() && lifecycle.state == Running
      modifies this`events, lifecycle, Journals()
      ensures JournalKept()
      ensures flow.Continue? ==> Ready() && lifecycle.state == Running && MayExecute(effect.effectId)
      ensures flow.Continue? ==> events == old(events)
      ensures flow.Continue? && journal != null ==>
                && effect.effectId !in RecordedEffects(old(journal.files))
                && effect.effectId in RecordedEffects(journal.files)
      ensures flow.Stop? ==> ResultSound(flow.result)
      ensures !flow.NextTurn?
    {
      hide OutcomeSound, LogSound, RecordedEffects, EffectsFirst, DistinctFrom, Covered;
      var noted := NoteIntent(effect);
      match noted
      case Done(_) => flow := Continue;
      case Crashed => flow := Stop(Killed);
      case Refused(_) => flow := StopPlainly(Failed, JournalFailure);
    }

    /** The broker executes: the only place where an effect happens. */
    method ExecuteNow(effect: EffectRequest) returns (r: Outcome<EffectOutput>)
      requires Base() && Untouched(effect.effectId) && MayExecute(effect.effectId)
      modifies this`events, broker
      ensures Base() && broker.executed == old(broker.executed) + [effect.effectId]
      ensures events == old(events) + [EngineEvent(
                |old(events)|, lifecycle.state, EffectAdmitted(effect.effectId), Some(identity.workerId))]
    {
      hide Open, ObservationsHeld, FreshlyExecuted, AdmittedIds, LogSound, RecordedEffects, EffectsFirst,
           VerificationBegun, DistinctFrom, NewIn, Unmentioned;
      ghost var before := events;
      PushEvent(EffectAdmitted(effect.effectId), true);
      UnmentionedIsNew(before, effect.effectId);
      OpenPush(before, events[|before|]);
      assert broker.executed[|startExecuted|..] == AdmittedIds(before);
      DistinctPush(broker.executed, |startExecuted|, effect.effectId);
      if journal != null {
        EffectsFirstPush(before, events[|before|], journal.files);
        ObservationsPush(before, events[|before|], journal.files);
        FreshlyPush(broker.executed, |startExecuted|, startFiles, journal.files, effect.effectId);
      }
      r := broker.ExecuteAuthorized(effect);
    }

    method AfterExecution(output: Outcome<EffectOutput>) returns (flow: Flow)
      requires Base() && lifecycle.state == Running
      modifies this`events, lifecycle
      ensures flow.Continue? ==> output.Done? && Base() && lifecycle.state == Running && events == old(events)
      ensures flow.Stop? ==> ResultSound(flow.result)
      ensures !flow.NextTurn?
    {
      hide DurableSound, OutcomeSound, AdmittedIds;
      match output
      case Done(_) => flow := Continue;
      case Crashed => flow := Stop(Killed);
      case Refused(_) =>
        if journal != null {
          flow := StopPlainly(Interrupted, EffectCompletionUnknown);
        } else {
          flow := StopPlainly(Failed, EffectExecutionFailure);
        }
    }

    /** A fresh, authorised effect: durable intent, execution, durable completion. */
    method ExecuteEffect(effect: EffectRequest, outputDigest: EffectOutput -> Digest) returns (flow: Flow)
      requires Ready() && lifecycle.state == Running
      requires Untouched(effect.effectId)
      modifies this`events, this`observations, lifecycle, broker, Journals()
      ensures JournalKept()
      ensures flow.Continue? ==> Ready() && lifecycle.state == Running
      ensures flow.Continue? ==> Performed(old(events), events, effect.effectId)
      ensures flow.Continue? ==> broker.executed == old(broker.executed) + [effect.effectId]
      ensures flow.Continue? && journal != null ==>
                && effect.effectId !in RecordedEffects(old(journal.files))
                && effect.effectId in RecordedEffects(journal.files)
      ensures journal != null && effect.effectId in RecordedEffects(old(journal.files)) ==>
                flow.Stop? && broker.executed == old(broker.executed)
      ensures flow.Stop? ==> ResultSound(flow.result)
      ensures !flow.NextTurn?
    {
      hide OutcomeSound, LogSound, RecordedEffects;
      flow := AdmitEffect(effect);
      if !flow.Continue? { return; }
      flow := RunAdmitted(effect, outputDigest);
    }

    /** The effect may execute; what it returned is recorded. */
    method RunAdmitted(effect: EffectRequest, outputDigest: EffectOutput -> Digest) returns (flow: Flow)
      requires Ready() && lifecycle.state == Running && MayExecute(effect.effectId)
      requires Untouched(effect.effectId)
      modifies this`events, this`observations, lifecycle, broker, Journals()
      ensures JournalKept()
      ensures flow.Continue? ==> Ready() && lifecycle.state == Running
      ensures flow.Continue? ==> Performed(old(events), events, effect.effectId)
      ensures flow.Continue? ==> broker.executed == old(broker.executed) + [effect.effectId]
      ensures flow.Stop? ==> ResultSound(flow.result)
      ensures !flow.NextTurn?
    {
      hide Open, FreshlyExecuted, ObservationsHeld, ResultSound, TraceReady, SumUsage, RecordedEffects, LogSound,
           AdmittedIds, EffectsFirst, VerificationBegun, DistinctFrom, Covered;
      ghost var before := events;
      var output := ExecuteNow(effect);
      flow := AfterExecution(output);
      if !flow.Continue? { return; }
      flow := CompleteEffect(effect, output.value, outputDigest, before);
    }

    /** The admitted effect is the last event, and the trace before it was ready. */
    ghost predicate Admitted(before: seq<EngineEvent>, id: string)
      reads this`events, this`repairAttempts, this`effectIds, this`observations, this`taken, adapter, usage
    {
      && TraceReady(before, observations, repairAttempts)
      && Covered(before, effectIds) && id in effectIds && Unmentioned(before, id)
      && adapter.issued == startIssued + taken && usage.Value() == SumUsage(taken)
      && |events| == |before| + 1 && events == before + [events[|before|]]
      && events[|before|].kind == EffectAdmitted(id)
    }

    /** Checks the output, records the completion and reports the observation. */
    method CompleteEffect(effect: EffectRequest, output: EffectOutput, outputDigest: EffectOutput -> Digest,
                          ghost before: seq<EngineEvent>)
      returns (flow: Flow)
      requires Base() && lifecycle.state == Running && Admitted(before, effect.effectId)
      modifies this`events, this`observations, lifecycle, Journals()
      ensures JournalKept()
      ensures flow.Continue? ==> Ready() && lifecycle.state == Running
      ensures flow.Continue? ==> Performed(before, events, effect.effectId)
      ensures flow.Stop? ==> ResultSound(flow.result)
      ensures !flow.NextTurn?
    {
      hide Base, Admitted, Performed, ResultSound, Ready, LogSound, Remembers;
      var code := CheckOutput(output);
      if code.Some? {
        flow := StopPlainly(Failed, code.value);
        StoppedKept(flow.result);
        return;
      }
      var observation := Journal.EffectObservation(
        effect.effectId, output.status, output.stdout, output.stderr, outputDigest(output));
      flow := FinishEffectNow(effect, observation, before);
    }

    /** The failure code of an output that may not be recorded. */
    method CheckOutput(output: EffectOutput) returns (code: Option<Code>)
      ensures code.Some? ==> code.value.EffectOutputLimit? || code.value.EffectOutputDigestFailure?
      ensures |output.stdout| + |output.stderr| > request.limits.maxOutputBytes ==> code.Some?
    {
      if |output.stdout| + |output.stderr| > request.limits.maxOutputBytes { return Some(EffectOutputLimit); }
      var digestFailed := AnyBool();
      return if digestFailed then Some(EffectOutputDigestFailure) else None;
    }

    /** Records the completion; a completion that cannot be recorded leaves the effect unknown. */
    method FinishEffectNow(effect: EffectRequest, observation: EffectObservation, ghost before: seq<EngineEvent>)
      returns (flow: Flow)
      requires Base() && lifecycle.state == Running && Admitted(before, effect.effectId)
      requires observation.effectId == effect.effectId
      modifies this`events, this`observations, lifecycle, Journals()
      ensures JournalKept()
      ensures flow.Continue? ==> Ready() && lifecycle.state == Running
      ensures flow.Continue? ==> Performed(before, events, effect.effectId)
      ensures flow.Stop? ==> ResultSound(flow.result)
      ensures !flow.NextTurn?
    {
      hide OutcomeSound, TraceReady, Admitted, Performed, Open, AdmittedIds, EffectsFirst, DistinctFrom,
           FreshlyExecuted, ObservationsHeld, VerificationBegun, Ready, Held;
      if journal != null {
        var noted := NoteCompletion(effect, observation);
        if noted.Crashed? { return Stop(Killed); }
        if noted.Refused? {
          flow := StopPlainly(Interrupted, EffectCompletionUnknown);
          return;
        }
      }
      PushAdmitted(observation, before);
      return Continue;
    }

    method PushAdmitted(observation: EffectObservation, ghost before: seq<EngineEvent>)
      requires Base() && Admitted(before, observation.effectId)
      requires journal != null ==> Held(observation, journal.files)
      modifies this`events, this`observations
      ensures Ready() && Performed(before, events, observation.effectId)
    {
      ghost var admitted, seen := events, observations;
      AdmittedCovered(before, admitted[|before|], effectIds, observation);
      PushObservation(observation);
      CoveredPush(admitted, events[|admitted|], effectIds);
      AdmitObserveTrace(before, seen, repairAttempts, admitted[|before|], events[|admitted|]);
    }

    method PushReplayed(observation: EffectObservation)
      requires Ready() && Untouched(observation.effectId)
      requires journal != null ==> Held(observation, journal.files)
      modifies this`events, this`observations
      ensures Ready() && observations == old(observations) + [observation]
      ensures events == old(events) + [EngineEvent(
                |old(events)|, lifecycle.state, EffectObserved(observation), Some(identity.workerId))]
    {
      hide TraceReady, Open, AdmittedIds, DurableSound, SumUsage, Covered, ObservationsHeld;
      ghost var before, seen := events, observations;
      PushObservation(observation);
      CoveredPush(before, events[|before|], effectIds);
      ObserveTrace(before, seen, repairAttempts, events[|before|]);
    }

    /** Adds a completed observation to the trace. */
    method PushObservation(observation: EffectObservation)
      requires Base() && NewIn(events, EffectObserved(observation))
      requires journal != null ==> Held(observation, journal.files)
      modifies this`events, this`observations
      ensures Base() && observations == old(observations) + [observation]
      ensures events == old(events) + [EngineEvent(
                |old(events)|, lifecycle.state, EffectObserved(observation), Some(identity.workerId))]
    {
      hide Base;
      observations := observations + [observation];
      PushKept(EffectObserved(observation), true);
    }

    /** One failed verification with this report was added to the trace, and one repair counted. */
    ghost predicate CountsFailure(before: seq<EngineEvent>, repairs: nat, digest: Digest)
      reads this`events, this`repairAttempts
    {
      && repairAttempts == repairs + 1
      && |events| == |before| + 1 && events[..|before|] == before
      && events[|before|].kind == VerificationFailed(digest)
    }

    /** The same for the report of this attempt, which the journal holds as its last event. */
    ghost predicate FailureCounted(before: seq<EngineEvent>, repairs: nat)
      reads this`events, this`repairAttempts, this`report, journal
    {
      && report.Some? && CountsFailure(before, repairs, report.value)
      && (journal != null ==> LogSound(journal.files) && ReportHeld(report.value, journal.files))
    }

    /** A verification attempt: durable start, the verifier, durable report, then pass, repair or fail. */
    method PerformVerify() returns (flow: Flow)
      requires Ready() && lifecycle.state == Running && WithinLimits(usage.Value(), request.limits)
      modifies this`events, this`report, this`repairAttempts, lifecycle, Journals()
      ensures flow.NextTurn? ==> Ready() && lifecycle.state == Running
      ensures flow.NextTurn? ==> FailureCounted(old(events), old(repairAttempts))
      ensures flow.Stop? ==> ResultSound(flow.result)
      ensures !flow.Continue?
      ensures JournalKept()
    {
      hide TraceReady, LogSound, AdmittedIds, WithinLimits, EffectsFirst, VerificationBegun, DistinctFrom, Covered,
           Open, FreshlyExecuted, ObservationsHeld, SumUsage;
      var ok := lifecycle.Transition(Verifying);
      if !ok { assert false; }
      if journal != null {
        var started := NoteVerificationStart();
        if started.Crashed? { return Stop(Killed); }
        if started.Refused? {
          flow := StopPlainly(Failed, JournalFailure);
          return;
        }
      }
      var verification := verifier.Check(request);
      if verification.Crashed? { return Stop(Killed); }
      flow := RecordVerification(verification.value);
    }

    method RecordVerification(verification: VerificationOutcome) returns (flow: Flow)
      requires Ready() && lifecycle.state == Verifying && WithinLimits(usage.Value(), request.limits)
      modifies this`events, this`report, this`repairAttempts, lifecycle, Journals()
      ensures flow.NextTurn? ==> Ready() && lifecycle.state == Running
      ensures flow.NextTurn? ==> FailureCounted(old(events), old(repairAttempts))
      ensures flow.Stop? ==> ResultSound(flow.result)
      ensures !flow.Continue?
      ensures JournalKept()
    {
      hide OutcomeSound, TraceReady, SumUsage, Open, AdmittedIds, FreshlyExecuted, ObservationsHeld, LogSound,
           RecordedEffects, ReportHeld, WithinLimits, EffectsFirst, VerificationBegun, DistinctFrom, Covered,
           Remembers;
      report := Some(verification.reportDigest);
      if journal != null {
        flow := RecordReport(verification.reportDigest);
        if !flow.Continue? { return; }
      }
      flow := Judge(verification);
    }

    /** The report is recorded: a pass ends the run, a failure is repaired within the limit or ends it too. */
    method Judge(verification: VerificationOutcome) returns (flow: Flow)
      requires Ready() && lifecycle.state == Verifying && WithinLimits(usage.Value(), request.limits)
      requires report == Some(verification.reportDigest)
      requires journal != null ==> ReportHeld(verification.reportDigest, journal.files)
      modifies this`events, this`repairAttempts, lifecycle
      ensures verification.passed ==> EndedWith(flow, VerifiedPass)
      ensures !verification.passed && old(repairAttempts) == request.limits.maxRepairAttempts ==>
                EndedWith(flow, VerificationFailure)
      ensures !verification.passed && old(repairAttempts) < request.limits.maxRepairAttempts ==> flow.NextTurn?
      ensures flow.NextTurn? ==> Ready() && lifecycle.state == Running
      ensures flow.NextTurn? ==> FailureCounted(old(events), old(repairAttempts))
      ensures flow.Stop? ==> ResultSound(flow.result)
      ensures !flow.Continue?
    {
      hide OutcomeSound, TraceReady, SumUsage, ResultSound;
      if verification.passed {
        flow := PassRun(verification.reportDigest);
      } else {
        flow := RepairOrFail(verification.reportDigest);
      }
    }

    method RecordReport(digest: Digest) returns (flow: Flow)
      requires journal != null && Ready() && lifecycle.state == Verifying
      modifies this`events, lifecycle, Journals()
      ensures flow.Continue? ==>
                && Ready() && lifecycle.state == Verifying && ReportHeld(digest, journal.files)
                && events == old(events) && report == old(report)
      ensures flow.Stop? ==> ResultSound(flow.result)
      ensures !flow.NextTurn?
      ensures JournalKept()
    {
      hide OutcomeSound, ObservationsHeld, LogSound, AdmittedIds, EffectsFirst, VerificationBegun, DistinctFrom,
           Covered, Remembers, Open, FreshlyExecuted, SumUsage;
      var noted := NoteReport(digest);
      match noted
      case Done(_) => flow := Continue;
      case Crashed => flow := Stop(Killed);
      case Refused(_) => flow := StopPlainly(Interrupted, VerificationCompletionUnknown);
    }

    method PassRun(digest: Digest) returns (flow: Flow)
      requires Ready() && lifecycle.state == Verifying && WithinLimits(usage.Value(), request.limits)
      requires report == Some(digest) && (journal != null ==> ReportHeld(digest, journal.files))
      modifies this`events, lifecycle
      ensures EndedWith(flow, VerifiedPass) && ResultSound(flow.result)
    {
      hide PassReady;
      MarkPassed(digest);
      var r := Finish(Passed, VerifiedPass);
      return Stop(r);
    }

    method MarkPassed(digest: Digest)
      requires Ready() && WithinLimits(usage.Value(), request.limits)
      requires report == Some(digest) && (journal != null ==> ReportHeld(digest, journal.files))
      modifies this`events
      ensures Base() && PassReady()
    {
      hide Base, DurableSound, TraceReady, PassTrace, AdmittedIds;
      ghost var before := events;
      PushKept(VerificationPassed(digest), true);
      PassedTrace(before, observations, repairAttempts, events[|before|]);
    }

    method RepairOrFail(digest: Digest) returns (flow: Flow)
      requires Ready() && lifecycle.state == Verifying
      requires journal != null ==> ReportHeld(digest, journal.files)
      modifies this`events, this`repairAttempts, lifecycle
      ensures flow.NextTurn? ==> Ready() && lifecycle.state == Running
      ensures flow.NextTurn? ==> CountsFailure(old(events), old(repairAttempts), digest)
      ensures flow.Stop? ==>
                EndedWith(flow, VerificationFailure) && old(repairAttempts) == request.limits.maxRepairAttempts
      ensures flow.Stop? ==> ResultSound(flow.result)
      ensures !flow.Continue?
    {
      hide OutcomeSound, TraceReady, SumUsage, Covered, Open, AdmittedIds, EffectsFirst, DistinctFrom,
           FreshlyExecuted, ObservationsHeld, VerificationBegun, Remembers, ReportHeld;
      MarkFailed(digest);
      if repairAttempts < request.limits.maxRepairAttempts {
        flow := Repair();
        return;
      }
      flow := StopRun(Failed, VerificationFailure);
    }

    method MarkFailed(digest: Digest)
      requires Ready()
      requires journal != null ==> LogSound(journal.files) && ReportHeld(digest, journal.files)
      modifies this`events
      ensures Base() && Covered(events, effectIds) && TraceReady(events, observations, repairAttempts + 1)
      ensures |events| == |old(events)| + 1 && events[..|old(events)|] == old(events)
      ensures events[|old(events)|].kind == VerificationFailed(digest)
    {
      hide Base, TraceReady;
      ghost var before := events;
      if journal != null { ReportMeansBegun(digest, journal.files); }
      PushKept(VerificationFailed(digest), true);
      CoveredPush(before, events[|before|], effectIds);
      FailTrace(before, observations, repairAttempts, events[|before|]);
    }

    /** The failed verification is the last event: count it and go back to running. */
    method Repair() returns (flow: Flow)
      requires Base() && lifecycle.state == Verifying && repairAttempts < request.limits.maxRepairAttempts
      requires Covered(events, effectIds) && TraceReady(events, observations, repairAttempts + 1)
      requires adapter.issued == startIssued + taken && usage.Value() == SumUsage(taken)
      modifies this`repairAttempts, lifecycle
      ensures flow.NextTurn? && Ready() && lifecycle.state == Running && repairAttempts == old(repairAttempts) + 1
    {
      hide Open, DurableSound, TraceReady, SumUsage, AdmittedIds, Covered;
      repairAttempts := repairAttempts + 1;
      var ok := lifecycle.Transition(Running);
      if !ok { assert false; }
      flow := NextTurn;
    }

    // ----- one turn -----

    method RunActions(
      actions: seq<AdapterAction>, turnStates: map<string, EffectState>, outputDigest: EffectOutput -> Digest)
      returns (flow: Flow)
      requires Ready() && lifecycle.state == Running && WithinLimits(usage.Value(), request.limits)
      requires journal != null ==> StatesHeld(turnStates, journal.files)
      modifies this`events, this`report, this`repairAttempts, this`effectIds, this`observations
      modifies lifecycle, broker, Journals()
      ensures !flow.Stop? ==> Ready() && lifecycle.state == Running
      ensures flow.Stop? ==> ResultSound(flow.result)
      ensures journal != null ==> journal.terminals == old(journal.terminals)
    {
      hide OutcomeSound, TraceReady, EffectsFirst, VerificationBegun, DistinctFrom, Covered, Remembers, Open,
           FreshlyExecuted, ObservationsHeld, AdmittedIds, SumUsage;
      var states := turnStates;
      for i := 0 to |actions|
        invariant Ready()
        invariant lifecycle.state == Running && WithinLimits(usage.Value(), request.limits)
        invariant journal != null ==> StatesHeld(states, journal.files)
        invariant journal != null ==> journal.terminals == old(journal.terminals)
      {
        if actions[i].Effect? {
          flow, states := RunEffect(actions[i].effect, states, outputDigest);
          if flow.Stop? { return; }
        } else {
          flow := RunControl(actions[i]);
          return;
        }
      }
      return Continue;
    }

    /** An effect action uses up the durable state that was read for it. */
    method RunEffect(effect: EffectRequest, states: map<string, EffectState>, outputDigest: EffectOutput -> Digest)
      returns (flow: Flow, rest: map<string, EffectState>)
      requires Ready() && lifecycle.state == Running
      requires journal != null ==> StatesHeld(states, journal.files)
      modifies this`events, this`effectIds, this`observations, lifecycle, broker, Journals()
      ensures flow.Continue? ==> Ready() && lifecycle.state == Running
      ensures flow.Continue? && journal != null ==> StatesHeld(rest, journal.files)
      ensures flow.Stop? ==> ResultSound(flow.result)
      ensures !flow.NextTurn?
      ensures journal != null ==> journal.terminals == old(journal.terminals)
    {
      var state := if effect.effectId in states then Some(states[effect.effectId]) else None;
      rest := states - {effect.effectId};
      flow := PerformEffect(effect, state, outputDigest);
      if flow.Continue? && journal != null { StatesKept(rest, old(journal.files), journal.files); }
    }

    /** Verification, a block or an interruption: nothing after it in the turn is run. */
    method RunControl(action: AdapterAction) returns (flow: Flow)
      requires Ready() && lifecycle.state == Running && WithinLimits(usage.Value(), request.limits)
      requires !action.Effect?
      modifies this`events, this`report, this`repairAttempts, lifecycle, Journals()
      ensures flow.NextTurn? ==> Ready() && lifecycle.state == Running
      ensures flow.Stop? ==> ResultSound(flow.result)
      ensures !flow.Continue?
      ensures journal != null ==> journal.terminals == old(journal.terminals)
    {
      hide DurableSound, Base, OutcomeSound, TraceReady;
      match action
      case Verify => flow := PerformVerify();
      case Blocked(_) => flow := StopPlainly(Failed, AdapterBlocked);
      case Interrupt => flow := StopPlainly(Interrupted, AdapterInterrupted);
    }

    /** Everything holds except that the last turn's usage is not counted yet. */
    ghost predicate Uncounted(turn: AdapterTurn)
      reads this`events, this`turns, this`repairAttempts, this`effectIds, this`observations, this`taken
      reads journal, broker, adapter, usage
    {
      && Base() && Covered(events, effectIds) && TraceReady(events, observations, repairAttempts)
      && adapter.issued == startIssued + taken && SumUsage(taken) == Plus(usage.Value(), turn.usage)
    }

    /** Asks the worker for one turn and counts its usage. */
    method ObtainTurn(turnIndex: nat) returns (flow: Flow, turn: Option<AdapterTurn>)
      requires Ready() && lifecycle.state == Running && turns == turnIndex < request.limits.maxTurns
      modifies this`events, this`turns, this`taken, lifecycle, usage, adapter, Journals()
      ensures flow.Continue? ==>
                turn.Some? && Ready() && lifecycle.state == Running && turns == turnIndex + 1
      ensures flow.Continue? && journal != null ==> TurnHeld(turn.value.digest, journal.files)
      ensures flow.Stop? ==> ResultSound(flow.result)
      ensures !flow.NextTurn?
      ensures journal != null ==> journal.terminals == old(journal.terminals)
    {
      hide Base, TraceReady, SumUsage, ResultSound, Covered, DurableSound, TurnHeld;
      flow, turn := AskWorker(turnIndex);
      if !flow.Continue? { return; }
      if journal != null {
        flow := RecordTurn(turn.value);
        if !flow.Continue? { return; }
      }
      flow := CountTurn(turn.value);
    }

    method RecordTurn(turn: AdapterTurn) returns (flow: Flow)
      requires journal != null && Uncounted(turn) && lifecycle.state == Running
      modifies this`events, lifecycle, Journals()
      ensures flow.Continue? ==> Uncounted(turn) && lifecycle.state == Running && TurnHeld(turn.digest, journal.files)
      ensures flow.Stop? ==> ResultSound(flow.result)
      ensures !flow.NextTurn?
      ensures journal.terminals == old(journal.terminals)
    {
      hide Open, DurableSound, OutcomeSound, TraceReady, SumUsage, AdmittedIds, Covered, TurnHeld, Remembers;
      var noted := NoteTurn(turn.digest);
      match noted
      case Done(_) => flow := Continue;
      case Crashed => flow := Stop(Killed);
      case Refused(_) => flow := StopPlainly(Failed, JournalFailure);
    }

    /** The failure that forbids asking for a turn: the time is up, or the worker is another one. */
    method CheckWorker() returns (failure: Option<Code>)
      ensures failure.Some? ==> failure.value.TimeLimit? || failure.value.WorkerIdentityDrift?
    {
      var timeUp := AnyBool();
      if timeUp { return Some(TimeLimit); }
      var current := adapter.Identity();
      if current != identity { return Some(WorkerIdentityDrift); }
      return None;
    }

    method AskWorker(turnIndex: nat) returns (flow: Flow, turn: Option<AdapterTurn>)
      requires Ready() && lifecycle.state == Running
      modifies this`events, this`taken, lifecycle, adapter, Journals()
      ensures flow.Continue? ==> turn.Some? && Uncounted(turn.value) && lifecycle.state == Running
      ensures flow.Stop? ==> ResultSound(flow.result)
      ensures !flow.NextTurn?
      ensures journal != null ==> journal.terminals == old(journal.terminals)
    {
      hide Base, TraceReady, SumUsage, Covered, ResultSound;
      turn := None;
      var failure := CheckWorker();
      if failure.Some? {
        flow := StopPlainly(if failure.value.TimeLimit? then Interrupted else Failed, failure.value);
        return;
      }
      var answer := AskForTurn(turnIndex);
      if answer.Crashed? {
        KilledIsSound();
        flow := Stop(Killed);
        return;
      }
      if answer.Refused? {
        flow := StopPlainly(Failed, AdapterFailure);
        return;
      }
      AcceptTurn(answer.value);
      turn := Some(answer.value);
      flow := Continue;
    }

    /** The worker answers, and may have used the journal of this run meanwhile. */
    method AskForTurn(turnIndex: nat) returns (answer: Outcome<AdapterTurn>)
      requires Ready()
      modifies adapter, Journals()
      ensures Base() && Covered(events, effectIds) && TraceReady(events, observations, repairAttempts)
      ensures usage.Value() == SumUsage(taken)
      ensures adapter.issued == startIssued + taken + if answer.Done? then [answer.value] else []
      ensures journal != null ==> journal.terminals == old(journal.terminals)
    {
      hide TraceReady, SumUsage, Open, AdmittedIds, FreshlyExecuted, ObservationsHeld, EffectsFirst, Covered,
           VerificationBegun, DistinctFrom, LogSound, Remembers;
      ghost var before := if journal == null then [] else journal.files;
      answer := adapter.ExecuteTurn(turnIndex, repairAttempts, observations, journal);
      if journal != null { JournalStepSound(before); }
    }

    /** Remembers that the worker's last turn belongs to this run. */
    ghost method AcceptTurn(turn: AdapterTurn)
      requires Base() && Covered(events, effectIds) && TraceReady(events, observations, repairAttempts)
      requires adapter.issued == startIssued + taken + [turn] && usage.Value() == SumUsage(taken)
      modifies this`taken
      ensures Uncounted(turn)
    {
      hide Base, TraceReady, SumUsage;
      ExtendUsage(taken, turn);
      taken := taken + [turn];
    }

    method CountTurn(turn: AdapterTurn) returns (flow: Flow)
      requires Uncounted(turn) && lifecycle.state == Running && turns < request.limits.maxTurns
      modifies this`events, this`turns, lifecycle, usage
      ensures flow.Continue? ==> Ready() && lifecycle.state == Running && turns == old(turns) + 1
      ensures flow.Stop? ==> ResultSound(flow.result)
      ensures !flow.NextTurn?
    {
      hide Open, DurableSound, ResultSound, TraceReady, SumUsage, AdmittedIds, EffectsFirst, VerificationBegun,
           DistinctFrom, Covered, Remembers;
      turns := turns + 1;
      var ok := usage.CheckedAccumulate(turn.usage);
      if !ok {
        flow := StopRun(Failed, TokenLimit);
        return;
      }
      PushPlain(TurnTaken, true);
      return Continue;
    }

    method PushPlain(kind: EngineEventKind, byWorker: bool)
      requires Ready() && (kind.RunReceived? || kind.RunValidated? || kind.RunStarted? || kind.TurnTaken?)
      modifies this`events
      ensures Ready()
    {
      hide Base, TraceReady;
      ghost var before := events;
      PushKept(kind, byWorker);
      CoveredPush(before, events[|before|], effectIds);
      PlainTrace(before, observations, repairAttempts, events[|before|]);
    }

    function EffectsOf(actions: seq<AdapterAction>): seq<EffectRequest> {
      if actions == [] then []
      else (if actions[0].Effect? then [actions[0].effect] else []) + EffectsOf(actions[1..])
    }

    /** The failure that the limits and controls raise for a turn, if any. */
    method CheckTurn(turn: AdapterTurn) returns (failure: Option<Code>)
      ensures failure.None? ==>
                && WithinLimits(usage.Value(), request.limits) && turn.controlMutations == []
                && |EffectsOf(turn.actions)| <= MAX_EFFECTS_PER_TURN
      ensures failure.Some? ==>
                || failure.value.EffectLimit?
                || (failure.value.TokenLimit? && Overrun(usage.Value(), request.limits))
                || (failure.value.OutputLimit? && usage.outputBytes > request.limits.maxOutputBytes)
                || (failure.value.AdapterControlMutation? && turn.controlMutations != [])
    {
      var total := CheckedTotalTokens(usage.Value());
      if total.None? { return Some(TokenLimit); }
      if total.value > request.limits.maxTokens { return Some(TokenLimit); }
      if usage.outputBytes > request.limits.maxOutputBytes { return Some(OutputLimit); }
      if turn.controlMutations != [] { return Some(AdapterControlMutation); }
      if |EffectsOf(turn.actions)| > MAX_EFFECTS_PER_TURN { return Some(EffectLimit); }
      return None;
    }

    method TakeTurn(turnIndex: nat, outputDigest: EffectOutput -> Digest) returns (flow: Flow)
      requires Ready() && lifecycle.state == Running && turns == turnIndex < request.limits.maxTurns
      modifies this`events, this`turns, this`taken, this`report, this`repairAttempts, this`effectIds
      modifies this`observations, lifecycle, usage, adapter, broker, Journals()
      ensures !flow.Stop? ==> Ready() && lifecycle.state == Running && turns == turnIndex + 1
      ensures flow.Stop? ==> ResultSound(flow.result)
      ensures journal != null ==> journal.terminals == old(journal.terminals)
    {
      hide DurableSound, Base, OutcomeSound, ObservationsHeld, TraceReady, AdmittedIds, RecordedEffects, Open,
           EffectsFirst, DistinctFrom, FreshlyExecuted, VerificationBegun, SumUsage;
      var turn;
      flow, turn := ObtainTurn(turnIndex);
      if !flow.Continue? { return; }
      var failure := CheckTurn(turn.value);
      if failure.Some? {
        flow := RefuseTurn(turn.value, failure.value);
        return;
      }
      flow := RunTurn(turn.value, outputDigest);
    }

    /** Ends the run on a turn that breaks a limit or touches the controls. */
    method RefuseTurn(turn: AdapterTurn, code: Code) returns (flow: Flow)
      requires Base() && lifecycle.state == Running
      requires
        || code.EffectLimit? || (code.TokenLimit? && Overspent())
        || (code.OutputLimit? && usage.outputBytes > request.limits.maxOutputBytes)
        || (code.AdapterControlMutation? && turn.controlMutations != [])
      modifies this`events, lifecycle
      ensures flow.Stop? && ResultSound(flow.result)
    {
      hide Base, ResultSound, DurableSound;
      if code.AdapterControlMutation? { PushKept(ControlMutationRejected(turn.controlMutations[0]), true); }
      flow := StopRun(if code.EffectLimit? then Denied else Failed, code);
    }

    /** Reads the durable states of the turn's effects and runs its actions. */
    method RunTurn(turn: AdapterTurn, outputDigest: EffectOutput -> Digest) returns (flow: Flow)
      requires Ready() && lifecycle.state == Running && WithinLimits(usage.Value(), request.limits)
      modifies this`events, this`report, this`repairAttempts, this`effectIds, this`observations
      modifies lifecycle, broker, Journals()
      ensures !flow.Stop? ==> Ready() && lifecycle.state == Running
      ensures flow.Stop? ==> ResultSound(flow.result)
      ensures journal != null ==> journal.terminals == old(journal.terminals)
    {
      hide DurableSound, OutcomeSound, TraceReady;
      var states: map<string, EffectState> := map[];
      if journal != null {
        var read := TurnStates(EffectsOf(turn.actions));
        if read.Crashed? { return Stop(Killed); }
        if read.Refused? {
          flow := StopPlainly(Failed, JournalFailure);
          return;
        }
        states := read.value;
      }
      flow := RunActions(turn.actions, states, outputDigest);
    }

    predicate AdapterMatchesRequest() {
      && identity.runtime == request.runtime && identity.modelIdentifier == request.modelIdentifier
      && identity.adapterVersion == request.adapterVersion && identity.workerId != ""
    }

    method BindOrStop() returns (flow: Flow)
      requires journal != null && Ready() && lifecycle.state == Received
      modifies this`events, journal`identity
      ensures flow.Continue? ==> Ready()
      ensures flow.Stop? ==> ResultSound(flow.result)
      ensures flow.Stop? && flow.result.Finished? ==> flow.result.outcome.terminalState == Failed
      ensures !flow.NextTurn?
      ensures old(journal.identity).Some? ==> journal.identity == old(journal.identity)
      ensures old(journal.identity).Some? && old(journal.identity).value != BoundTo(request) ==> flow.Stop?
    {
      hide Base, TraceReady, SumUsage, ResultSound;
      var bound := BindNow();
      match bound
      case Done(_) => flow := Continue;
      case Crashed =>
        KilledIsSound();
        flow := Stop(Killed);
      case Refused(_) =>
        var r := Conclude(Failed, JournalFailure);
        flow := Stop(r);
    }

    method BindNow() returns (bound: Outcome<()>)
      requires journal != null && Ready()
      modifies journal`identity
      ensures Ready()
      ensures old(journal.identity).Some? ==> journal.identity == old(journal.identity)
      ensures old(journal.identity).Some? && old(journal.identity).value != BoundTo(request) ==> !bound.Done?
    {
      var fault := AnyFault();
      bound := journal.BindRequest(request, fault);
    }

    /** Binds the journal and enters the running state. */
    method Start() returns (flow: Flow)
      requires Ready() && lifecycle.state == Received
      modifies this`events, lifecycle, Journals()
      ensures flow.Continue? ==> Ready() && lifecycle.state == Running
      ensures flow.Stop? ==> ResultSound(flow.result) && broker.executed == old(broker.executed)
      ensures !flow.NextTurn?
      ensures journal != null ==> journal.files == old(journal.files) && journal.terminals == old(journal.terminals)
      ensures journal != null && old(journal.identity).Some? ==> journal.identity == old(journal.identity)
      ensures journal != null && old(journal.identity).Some? && old(journal.identity).value != BoundTo(request) ==>
                flow.Stop? && (flow.result.Finished? ==> flow.result.outcome.terminalState == Failed)
    {
      hide Base, TraceReady, SumUsage, ResultSound, PassReady, OutcomeSound;
      PushPlain(RunReceived, false);
      if !AdapterMatchesRequest() {
        var r := Conclude(Failed, AdapterIdentityMismatch);
        return Stop(r);
      }
      if journal != null {
        flow := BindOrStop();
        if !flow.Continue? { return; }
      }
      flow := EnterRunning();
    }

    /** The turn loop. */
    method RunTurns(outputDigest: EffectOutput -> Digest) returns (r: RunResult)
      requires Ready() && lifecycle.state == Running && turns == 0
      modifies this`events, this`turns, this`taken, this`report, this`repairAttempts, this`effectIds
      modifies this`observations, lifecycle, usage, adapter, broker, Journals()
      ensures ResultSound(r)
      ensures journal != null ==> journal.terminals == old(journal.terminals)
    {
      hide DurableSound, Base, OutcomeSound, TraceReady;
      var flow;
      for turnIndex := 0 to request.limits.maxTurns
        invariant Ready() && lifecycle.state == Running && turns == turnIndex
        invariant journal != null ==> journal.terminals == old(journal.terminals)
      {
        flow := TakeTurn(turnIndex, outputDigest);
        if flow.Stop? { return flow.result; }
      }
      flow := StopRun(Failed, TurnLimit);
      return flow.result;
    }

    /** The whole run; a journal bound to another request stops it before anything happens. */
    method Execute(outputDigest: EffectOutput -> Digest) returns (r: RunResult)
      requires Ready() && lifecycle.state == Received && turns == 0
      modifies this`events, this`turns, this`taken, this`report, this`repairAttempts, this`effectIds
      modifies this`observations, lifecycle, usage, adapter, broker, Journals()
      ensures ResultSound(r)
      ensures journal != null ==> journal.terminals == old(journal.terminals)
      ensures journal != null && old(journal.identity).Some? && old(journal.identity).value != BoundTo(request) ==>
                && broker.executed == old(broker.executed) && journal.Contents() == old(journal.Contents())
                && (r.Finished? ==> r.outcome.terminalState == Failed)
    {
      hide Ready;
      var flow := Start();
      if flow.Stop? { return flow.result; }
      r := RunTurns(outputDigest);
    }

    method EnterRunning() returns (flow: Flow)
      requires Ready() && lifecycle.state == Received
      modifies this`events, lifecycle
      ensures flow.Continue? ==> Ready() && lifecycle.state == Running
      ensures flow.Stop? ==> ResultSound(flow.result)
      ensures !flow.NextTurn?
    {
      hide ResultSound, Base, TraceReady, PassReady;
      var ok := lifecycle.Transition(Validated);
      if !ok { assert false; }
      PushPlain(RunValidated, false);
      ok := lifecycle.Transition(Running);
      if !ok { assert false; }
      PushPlain(RunStarted, true);
      var digestFailed := AnyBool();
      if digestFailed {
        // The contract digest fails: this outcome is assembled without a transition.
        var r := Conclude(Failed, ContractDigestFailure);
        return Stop(r);
      }
      return Continue;
    }
  }

  class DirectEngine {
    const broker: Broker
    /** The canonical digest of an effect's output. */
    const outputDigest: EffectOutput -> Digest

    constructor (broker: Broker, outputDigest: EffectOutput -> Digest)
      ensures this.broker == broker
    {
      this.broker, this.outputDigest := broker, outputDigest;
    }

    method Run(request: RunRequest, adapter: Adapter, verifier: Verifier) returns (r: RunResult)
      modifies adapter, broker
      ensures r.Finished? ==> OutcomeSound(r.outcome, request.limits)
      ensures r.Finished? ==> broker.executed == old(broker.executed) + AdmittedIds(r.outcome.events)
      ensures old(broker.executed) <= broker.executed && DistinctFrom(broker.executed, |old(broker.executed)|)
    {
      r := RunInner(request, adapter, verifier, null, false);
    }

    /** One run, plain or durable. */
    method RunInner(
      request: RunRequest, adapter: Adapter, verifier: Verifier, journal: CheckpointJournal?, n7Authority: bool)
      returns (r: RunResult)
      requires journal != null ==> LogSound(journal.files)
      modifies adapter, broker, if journal == null then {} else {journal}
      ensures r.Finished? ==> OutcomeSound(r.outcome, request.limits)
      ensures r.Finished? ==> broker.executed == old(broker.executed) + AdmittedIds(r.outcome.events)
      ensures old(broker.executed) <= broker.executed && DistinctFrom(broker.executed, |old(broker.executed)|)
      ensures r.Finished? && r.outcome.failureCode == Some(TokenLimit) ==>
                && old(adapter.issued) <= adapter.issued
                && Overrun(SumUsage(adapter.issued[|old(adapter.issued)|..]), request.limits)
      ensures r.Finished? && r.outcome.terminalState == Passed ==>
                && old(adapter.issued) <= adapter.issued && r.outcome.verifierReport.Some?
                && r.outcome.metrics.usage == SumUsage(adapter.issued[|old(adapter.issued)|..])
      ensures journal != null ==>
                && LogSound(journal.files) && Remembers(journal.files, old(journal.files))
                && journal.terminals == old(journal.terminals)
                && FreshlyExecuted(broker.executed, |old(broker.executed)|, old(journal.files), journal.files)
      ensures journal != null && r.Finished? ==>
                ObservationsHeld(r.outcome.events, journal.files) && AdmissionsFirst(r.outcome.events)
      ensures journal != null && VerificationBegun(old(journal.files)) ==> broker.executed == old(broker.executed)
      ensures journal != null && r.Finished? && r.outcome.terminalState == Passed ==>
                ReportHeld(r.outcome.verifierReport.value, journal.files)
      ensures journal != null && old(journal.identity).Some? && old(journal.identity).value != BoundTo(request) ==>
                && broker.executed == old(broker.executed) && journal.Contents() == old(journal.Contents())
                && (r.Finished? ==> r.outcome.terminalState == Failed)
    {
      var identity := adapter.Identity();
      var session := new Session(request, identity, journal, broker, adapter, verifier, n7Authority);
      r := session.Execute(outputDigest);
    }

    method RunDurable(
      request: RunRequest, adapter: Adapter, verifier: Verifier, journal: CheckpointJournal, n7Authority: bool)
      returns (r: RunResult)
      requires OncePerJournal(broker.executed, journal.files)
      modifies adapter, broker, journal
      ensures OncePerJournal(broker.executed, journal.files)
      ensures old(broker.executed) <= broker.executed && Remembers(journal.files, old(journal.files))
      ensures r.Finished? ==>
                OutcomeSound(r.outcome, request.limits) && ObservationsHeld(r.outcome.events, journal.files)
    {
      r := RunInner(request, adapter, verifier, journal, n7Authority);
      OnceExtended(old(broker.executed), broker.executed, old(journal.files), journal.files);
    }

    /**
     Any number of runs on one journal, for any requests, each possibly killed at any point:
     no effect is executed twice, and all runs report the same observation for an effect.
     */
    method SuccessiveRuns(requests: seq<RunRequest>, verifier: Verifier, journal: CheckpointJournal, n7Authority: bool)
      returns (results: seq<RunResult>)
      requires OncePerJournal(broker.executed, journal.files)
      modifies broker, journal
      ensures OncePerJournal(broker.executed, journal.files)
      ensures |results| == |requests| && AllReported(results, requests, journal.files)
    {
      hide OutcomeSound, ObservationsHeld, Remembers, AllReported, LogSound;
      results := [];
      NothingReported(requests, journal.files);
      for i := 0 to |requests|
        invariant |results| == i && OncePerJournal(broker.executed, journal.files)
        invariant AllReported(results, requests, journal.files)
      {
        var adapter := new Adapter();
        ghost var before := journal.files;
        var r := RunDurable(requests[i], adapter, verifier, journal, n7Authority);
        ReportedMore(results, requests, before, journal.files, r);
        results := results + [r];
      }
    }
  }

  /** No effect was executed twice, and every executed effect has a durable intent. */
  predicate OncePerJournal(executed: seq<string>, files: seq<EventFile>) {
    && LogSound(files)
    && (forall i | 0 <= i < |executed| :: executed[i] in RecordedEffects(files))
    && (forall i, j | 0 <= i < j < |executed| :: executed[i] != executed[j])
  }

  /** Every finished run kept its promises, and its observations are the durable ones. */
  predicate AllReported(results: seq<RunResult>, requests: seq<RunRequest>, files: seq<EventFile>)
    requires LogSound(files)
  {
    && |results| <= |requests|
    && (forall i | 0 <= i < |results| && results[i].Finished? ::
          && OutcomeSound(results[i].outcome, requests[i].limits)
          && ObservationsHeld(results[i].outcome.events, files))
  }

  lemma NothingReported(requests: seq<RunRequest>, files: seq<EventFile>)
    requires LogSound(files)
    ensures AllReported([], requests, files)
  {
  }

  lemma ReportedMore(
    results: seq<RunResult>, requests: seq<RunRequest>, before: seq<EventFile>, after: seq<EventFile>, r: RunResult)
    requires LogSound(before) && LogSound(after) && Remembers(after, before)
    requires AllReported(results, requests, before) && |results| < |requests|
    requires r.Finished? ==>
               OutcomeSound(r.outcome, requests[|results|].limits) && ObservationsHeld(r.outcome.events, after)
    ensures AllReported(results + [r], requests, after)
  {
    hide OutcomeSound, Remembers, LogSound, ObservationsHeld;
    forall i | 0 <= i < |results| && results[i].Finished?
      ensures ObservationsHeld(results[i].outcome.events, after)
    {
      ObservationsKept(results[i].outcome.events, before, after);
    }
  }

  lemma OnceExtended(before: seq<string>, after: seq<string>, files: seq<EventFile>, files': seq<EventFile>)
    requires OncePerJournal(before, files) && LogSound(files') && Remembers(files', files) && before <= after
    requires FreshlyExecuted(after, |before|, files, files') && DistinctFrom(after, |before|)
    ensures OncePerJournal(after, files')
  {
    forall i, j | 0 <= i < j < |after|
      ensures after[i] != after[j]
    {
      if j < |before| { assert before[i] == after[i] && before[j] == after[j]; }
      if i < |before| { assert before[i] == after[i]; }
    }
  }

  /**
   Between two runs other processes may use the journal: whatever calls they make and whatever faults
   those meet, what was executed stays executed once, and what was reported stays durable.
   */
  lemma OnceBetweenRuns(
    hash: seq<byte> -> Digest, d: Disk, actions: seq<Action>, executed: seq<string>, events: seq<EngineEvent>)
    requires OncePerJournal(executed, d.files) && ObservationsHeld(events, d.files)
    ensures var after := AfterAll(hash, d, actions);
            OncePerJournal(executed, after.files) && ObservationsHeld(events, after.files)
  {
    var after := AfterAll(hash, d, actions);
    HistoryRemembers(hash, d, actions);
    ObservationsKept(events, d.files, after.files);
  }

  /** Two runs on the same journal never report different results for one effect. */
  lemma ReportsAgree(events: seq<EngineEvent>, events': seq<EngineEvent>, files: seq<EventFile>, i: nat, j: nat)
    requires LogSound(files) && ObservationsHeld(events, files) && ObservationsHeld(events', files)
    requires i < |events| && j < |events'| && events[i].kind.EffectObserved? && events'[j].kind.EffectObserved?
    requires events[i].kind.observation.effectId == events'[j].kind.observation.effectId
    ensures events[i].kind.observation == events'[j].kind.observation
  {
    assert Held(events[i].kind.observation, files) && Held(events'[j].kind.observation, files);
  }

  /** A state that was read is still true: an unknown effect has its durable intent, a completed one its result. */
  predicate StateHeld(id: string, state: Option<EffectState>, files: seq<EventFile>)
    requires LogSound(files)
  {
    && (state == Some(Unknown) ==> id in RecordedEffects(files))
    && (state.Some? && state.value.Completed? ==>
          Held(state.value.observation, files) && state.value.observation.effectId == id)
  }

  predicate StatesHeld(states: map<string, EffectState>, files: seq<EventFile>)
    requires LogSound(files)
  {
    forall id | id in states :: StateHeld(id, Some(states[id]), files)
  }

  lemma StatesKept(states: map<string, EffectState>, before: seq<EventFile>, after: seq<EventFile>)
    requires LogSound(before) && LogSound(after) && Remembers(after, before) && StatesHeld(states, before)
    ensures StatesHeld(states, after)
  {
  }

  lemma UnmentionedIsNew(events: seq<EngineEvent>, id: string)
    requires Unmentioned(events, id)
    ensures NewIn(events, EffectAdmitted(id)) && id !in AdmittedIds(events)
  {
    if id in AdmittedIds(events) { AdmittedIn(events, id); }
  }

  /** The admission does not speak of an observation, so this one is the first of its effect. */
  lemma AdmittedCovered(
    events: seq<EngineEvent>, a: EngineEvent, ids: set<string>, o: EffectObservation)
    requires Covered(events, ids) && Unmentioned(events, o.effectId) && o.effectId in ids
    requires a.kind == EffectAdmitted(o.effectId)
    ensures Covered(events + [a], ids) && NewIn(events + [a], EffectObserved(o))
  {
  }

  lemma EndedTrace(o: RunOutcome, before: seq<EngineEvent>, limits: RunLimits)
    requires Open(before)
    requires o.events == before + [
               EngineEvent(|before|, o.terminalState, RunEnded(o.terminalState), Some(o.worker.workerId))]
    requires IsTerminal(o.terminalState) && o.observations == CompletedObservations(o.events)
    requires (o.failureCode.None? <==> o.terminalState == Passed) && o.failureCode != Some(InvalidInternalTransition)
    requires o.failureCode.Some? ==>
               && StateOfCode(o.failureCode.value) == o.terminalState
               && Explains(o.failureCode.value, before, o.metrics, limits)
    requires o.metrics.turns <= limits.maxTurns && o.metrics.repairAttempts <= limits.maxRepairAttempts
    requires o.terminalState == Passed ==>
               && o.verifierReport.Some?
               && PassTrace(before, o.metrics.repairAttempts, o.verifierReport.value)
               && WithinLimits(o.metrics.usage, limits)
    ensures OutcomeSound(o, limits)
  {
    hide PassTrace, PassSound, Explains, CompletedObservations, WithinLimits, StateOfCode;
    assert o.events[..|o.events| - 1] == before;
    assert o.events[|before|] == o.events[|o.events| - 1];
    if o.terminalState == Passed { PassedRunSound(o, before, limits); }
  }

  lemma PassedRunSound(o: RunOutcome, before: seq<EngineEvent>, limits: RunLimits)
    requires o.events == before + [
               EngineEvent(|before|, o.terminalState, RunEnded(o.terminalState), Some(o.worker.workerId))]
    requires o.verifierReport.Some? && PassTrace(before, o.metrics.repairAttempts, o.verifierReport.value)
    requires WithinLimits(o.metrics.usage, limits)
    ensures PassSound(o, limits)
  {
    hide Clean, Matched, WithinLimits;
    ExtendTrace(before, o.events[|before|]);
    assert o.events[..|o.events| - 2] == before[..|before| - 1];
  }
}
