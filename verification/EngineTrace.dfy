/**
 The engine's event trace and outcome, what a finished run promises about them, and what one
 journal operation means to the engine: which effects the durable journal holds afterwards.
 */
module EngineTrace {
  import opened Ordering
  import opened Words
  import opened Wrappers
  import Journal
  import opened Recorders
  import opened CheckpointJournal
  import opened JournalHistory
  import opened RunLifecycle

  type Digest = Journal.Digest
  type EffectObservation = Journal.EffectObservation

  datatype ControlMutation = Authority | Policy | VerifierProfile | TerminalState

  datatype AdapterAction =
    | Effect(effect: EffectRequest)
    | Verify
    | Blocked(reason: string)
    | Interrupt

  /** One structured turn of the worker; `digest` is its canonical digest. */
  datatype AdapterTurn = AdapterTurn(
    actions: seq<AdapterAction>, usage: Usage, controlMutations: seq<ControlMutation>, digest: Digest)

  datatype AdapterIdentity = AdapterIdentity(
    runtime: string, modelIdentifier: string, adapterVersion: string, workerId: string)

  datatype VerificationOutcome = VerificationOutcome(passed: bool, reportDigest: Digest)

  datatype EffectOutput = EffectOutput(status: int, stdout: seq<byte>, stderr: seq<byte>)

  datatype EngineEventKind =
    | RunReceived
    | RunValidated
    | RunStarted
    | TurnTaken
    | EffectAdmitted(effectId: string)
    | EffectObserved(observation: EffectObservation)
    | EffectDenied(deniedId: string)
    | VerificationPassed(report: Digest)
    | VerificationFailed(failedReport: Digest)
    | ControlMutationRejected(mutation: ControlMutation)
    | RunEnded(terminalState: RunState)

  datatype EngineEvent = EngineEvent(sequence: nat, state: RunState, kind: EngineEventKind, workerId: Option<string>)

  /** The codes a run can end with, in the order of the source; the first is no failure. */
  datatype Code =
    | VerifiedPass
    | InvalidInternalTransition
    | AdapterIdentityMismatch
    | JournalFailure
    | ContractDigestFailure
    | TimeLimit
    | WorkerIdentityDrift
    | AdapterFailure
    | TokenLimit
    | OutputLimit
    | AdapterControlMutation
    | EffectLimit
    | EffectRunIdentityMismatch
    | DuplicateEffect
    | EffectCompletionUnknown
    | ExecutionAuthorityNotCurrent
    | EffectExecutionFailure
    | EffectOutputLimit
    | EffectOutputDigestFailure
    | EffectNotAuthorized
    | VerificationCompletionUnknown
    | VerificationFailure
    | AdapterBlocked
    | AdapterInterrupted
    | TurnLimit

  /** The terminal state that goes with a code. */
  function StateOfCode(code: Code): RunState {
    match code
    case VerifiedPass => Passed
    case TimeLimit => Interrupted
    case EffectCompletionUnknown => Interrupted
    case VerificationCompletionUnknown => Interrupted
    case AdapterInterrupted => Interrupted
    case EffectLimit => Denied
    case EffectRunIdentityMismatch => Denied
    case DuplicateEffect => Denied
    case ExecutionAuthorityNotCurrent => Denied
    case EffectNotAuthorized => Denied
    case _ => Failed
  }

  datatype Metrics = Metrics(turns: nat, repairAttempts: nat, usage: Usage)

  datatype RunOutcome = RunOutcome(
    terminalState: RunState, worker: AdapterIdentity, metrics: Metrics, events: seq<EngineEvent>,
    observations: seq<EffectObservation>, verifierReport: Option<Digest>, failureCode: Option<Code>)

  /** A run ends with an outcome, or the process is killed and its memory is gone. */
  datatype RunResult = Finished(outcome: RunOutcome) | Killed

  // ----- traces -----

  predicate SequenceNumbers(events: seq<EngineEvent>) {
    forall i | 0 <= i < |events| :: events[i].sequence == i
  }

  predicate Final(kind: EngineEventKind) {
    kind.RunEnded? || kind.EffectDenied? || kind.ControlMutationRejected? || kind.VerificationPassed?
  }

  /** No terminal, denial, rejected mutation or passed verification so far. */
  predicate Clean(events: seq<EngineEvent>) {
    forall i | 0 <= i < |events| :: !Final(events[i].kind)
  }

  /** Every admitted effect is directly followed by its own observation. */
  predicate Matched(events: seq<EngineEvent>) {
    forall i | 0 <= i < |events| && events[i].kind.EffectAdmitted? ::
      && i + 1 < |events|
      && events[i + 1].kind.EffectObserved?
      && events[i + 1].kind.observation.effectId == events[i].kind.effectId
  }

  function CompletedObservations(events: seq<EngineEvent>): seq<EffectObservation> {
    if events == [] then []
    else
      var last := |events| - 1;
      CompletedObservations(events[..last]) +
      (if events[last].kind.EffectObserved? then [events[last].kind.observation] else [])
  }

  /** The effects a trace says were handed to the broker, in order. */
  function AdmittedIds(events: seq<EngineEvent>): seq<string> {
    if events == [] then []
    else
      var last := |events| - 1;
      AdmittedIds(events[..last]) + (if events[last].kind.EffectAdmitted? then [events[last].kind.effectId] else [])
  }

  lemma AdmittedExtend(events: seq<EngineEvent>, e: EngineEvent)
    ensures AdmittedIds(events + [e]) ==
            AdmittedIds(events) + (if e.kind.EffectAdmitted? then [e.kind.effectId] else [])
  {
    assert (events + [e])[..|events|] == events;
  }

  /** Two events admit the same effect, or observe it. */
  predicate Repeats(a: EngineEventKind, b: EngineEventKind) {
    || (a.EffectAdmitted? && b.EffectAdmitted? && a.effectId == b.effectId)
    || (a.EffectObserved? && b.EffectObserved? && a.observation.effectId == b.observation.effectId)
  }

  /** No effect is admitted twice, and none is observed twice. */
  predicate OnceEach(events: seq<EngineEvent>) {
    forall i, j | 0 <= i < j < |events| :: !Repeats(events[i].kind, events[j].kind)
  }

  predicate NewIn(events: seq<EngineEvent>, kind: EngineEventKind) {
    forall i | 0 <= i < |events| :: !Repeats(events[i].kind, kind)
  }

  lemma OnceEachPush(events: seq<EngineEvent>, e: EngineEvent)
    requires OnceEach(events) && NewIn(events, e.kind)
    ensures OnceEach(events + [e])
  {
  }

  lemma {:induction false} AdmittedIn(events: seq<EngineEvent>, id: string)
    requires id in AdmittedIds(events)
    ensures !NewIn(events, EffectAdmitted(id))
  {
    var n := |events| - 1;
    if events[n].kind == EffectAdmitted(id) {
      assert Repeats(events[n].kind, EffectAdmitted(id));
    } else {
      AdmittedIn(events[..n], id);
      var i :| 0 <= i < n && Repeats(events[..n][i].kind, EffectAdmitted(id));
      assert events[i] == events[..n][i];
    }
  }

  lemma {:induction false} ObservedIn(events: seq<EngineEvent>, o: EffectObservation)
    requires o in CompletedObservations(events)
    ensures exists i | 0 <= i < |events| :: events[i].kind == EffectObserved(o)
  {
    var n := |events| - 1;
    if events[n].kind != EffectObserved(o) {
      ObservedIn(events[..n], o);
      var i :| 0 <= i < n && events[..n][i].kind == EffectObserved(o);
      assert events[i] == events[..n][i];
    }
  }

  /** A trace that admits no effect twice hands distinct effects to the broker. */
  lemma {:induction false} AdmittedOnce(events: seq<EngineEvent>)
    requires OnceEach(events)
    ensures NoRepeat(AdmittedIds(events))
  {
    if events != [] {
      var n := |events| - 1;
      var front := events[..n];
      assert OnceEach(front) && NewIn(front, events[n].kind);
      AdmittedOnce(front);
      if events[n].kind.EffectAdmitted? && events[n].kind.effectId in AdmittedIds(front) {
        AdmittedIn(front, events[n].kind.effectId);
      }
    }
  }

  /** No two of its observations are of one effect. */
  lemma {:induction false} ObservedOnce(events: seq<EngineEvent>)
    requires OnceEach(events)
    ensures var os := CompletedObservations(events);
            forall i, j | 0 <= i < j < |os| :: os[i].effectId != os[j].effectId
  {
    if events != [] {
      var n := |events| - 1;
      var front := events[..n];
      assert OnceEach(front) && NewIn(front, events[n].kind);
      ObservedOnce(front);
      if events[n].kind.EffectObserved? {
        var o, os := events[n].kind.observation, CompletedObservations(front);
        ObservedNew(front, o);
        assert forall i | 0 <= i < |os| :: os[i] in os;
        assert CompletedObservations(events) == os + [o];
      } else {
        assert CompletedObservations(events) == CompletedObservations(front);
      }
    }
  }

  lemma ObservedNew(events: seq<EngineEvent>, o: EffectObservation)
    requires NewIn(events, EffectObserved(o))
    ensures forall o' | o' in CompletedObservations(events) :: o'.effectId != o.effectId
  {
    forall o' | o' in CompletedObservations(events)
      ensures o'.effectId != o.effectId
    {
      ObservedIn(events, o');
      var i :| 0 <= i < |events| && events[i].kind == EffectObserved(o');
      assert !Repeats(events[i].kind, EffectObserved(o));
    }
  }

  /** The trace does not speak of the effect yet. */
  predicate Unmentioned(events: seq<EngineEvent>, id: string) {
    forall i | 0 <= i < |events| ::
      && (events[i].kind.EffectAdmitted? ==> events[i].kind.effectId != id)
      && (events[i].kind.EffectObserved? ==> events[i].kind.observation.effectId != id)
  }

  /** Every effect that the trace speaks of is among these. */
  predicate Covered(events: seq<EngineEvent>, ids: set<string>) {
    forall i | 0 <= i < |events| :: CoveredKind(events[i].kind, ids)
  }

  predicate CoveredKind(kind: EngineEventKind, ids: set<string>) {
    (kind.EffectAdmitted? ==> kind.effectId in ids) && (kind.EffectObserved? ==> kind.observation.effectId in ids)
  }

  lemma CoveredPush(events: seq<EngineEvent>, e: EngineEvent, ids: set<string>)
    requires Covered(events, ids) && CoveredKind(e.kind, ids)
    ensures Covered(events + [e], ids)
  {
  }

  lemma CoveredMore(events: seq<EngineEvent>, ids: set<string>, id: string)
    requires Covered(events, ids) && id !in ids
    ensures Covered(events, ids + {id}) && Unmentioned(events, id)
  {
  }

  /** No effect is admitted after a failed verification. */
  predicate AdmissionsFirst(events: seq<EngineEvent>) {
    forall i, j | 0 <= i < j < |events| && events[i].kind.VerificationFailed? :: !events[j].kind.EffectAdmitted?
  }

  predicate Tried(events: seq<EngineEvent>) {
    exists i | 0 <= i < |events| :: events[i].kind.VerificationFailed?
  }

  lemma AdmissionsFirstPush(events: seq<EngineEvent>, e: EngineEvent)
    requires AdmissionsFirst(events) && (e.kind.EffectAdmitted? ==> !Tried(events))
    ensures AdmissionsFirst(events + [e])
    ensures Tried(events + [e]) ==> Tried(events) || e.kind.VerificationFailed?
  {
  }

  /** The number of failed verifications in a trace. */
  function Failures(events: seq<EngineEvent>): nat {
    if events == [] then 0
    else Failures(events[..|events| - 1]) + (if events[|events| - 1].kind.VerificationFailed? then 1 else 0)
  }

  lemma ExtendTrace(events: seq<EngineEvent>, e: EngineEvent)
    ensures CompletedObservations(events + [e]) ==
            CompletedObservations(events) + (if e.kind.EffectObserved? then [e.kind.observation] else [])
    ensures Failures(events + [e]) == Failures(events) + (if e.kind.VerificationFailed? then 1 else 0)
  {
    assert (events + [e])[..|events|] == events;
  }

  /** A trace between two actions: nothing final yet, every admitted effect observed. */
  predicate TraceReady(events: seq<EngineEvent>, observations: seq<EffectObservation>, failures: nat) {
    && SequenceNumbers(events) && Clean(events) && Matched(events)
    && observations == CompletedObservations(events)
    && Failures(events) == failures
  }

  lemma ExtendClean(events: seq<EngineEvent>, e: EngineEvent)
    requires SequenceNumbers(events) && Clean(events) && Matched(events)
    requires e.sequence == |events| && !Final(e.kind) && !e.kind.EffectAdmitted?
    ensures SequenceNumbers(events + [e]) && Clean(events + [e]) && Matched(events + [e])
  {
  }

  lemma ObserveTrace(events: seq<EngineEvent>, observations: seq<EffectObservation>, failures: nat, e: EngineEvent)
    requires TraceReady(events, observations, failures) && e.sequence == |events| && e.kind.EffectObserved?
    ensures TraceReady(events + [e], observations + [e.kind.observation], failures)
  {
    hide SequenceNumbers, Clean, Matched, CompletedObservations, Failures;
    ExtendClean(events, e);
    ExtendTrace(events, e);
  }

  lemma AdmitObserveClean(events: seq<EngineEvent>, a: EngineEvent, e: EngineEvent)
    requires SequenceNumbers(events) && Clean(events) && Matched(events)
    requires a.sequence == |events| && e.sequence == |events| + 1
    requires a.kind.EffectAdmitted? && e.kind.EffectObserved? && e.kind.observation.effectId == a.kind.effectId
    ensures var longer := events + [a] + [e];
            SequenceNumbers(longer) && Clean(longer) && Matched(longer)
  {
    assert events + [a] + [e] == events + [a, e];
  }

  lemma AdmitObserveTrace(
    events: seq<EngineEvent>, observations: seq<EffectObservation>, failures: nat, a: EngineEvent, e: EngineEvent)
    requires TraceReady(events, observations, failures) && a.sequence == |events| && e.sequence == |events| + 1
    requires a.kind.EffectAdmitted? && e.kind.EffectObserved? && e.kind.observation.effectId == a.kind.effectId
    ensures TraceReady(events + [a] + [e], observations + [e.kind.observation], failures)
  {
    hide SequenceNumbers, Clean, Matched, CompletedObservations, Failures;
    AdmitObserveClean(events, a, e);
    ExtendTrace(events, a);
    ExtendTrace(events + [a], e);
  }

  lemma PlainTrace(events: seq<EngineEvent>, observations: seq<EffectObservation>, failures: nat, e: EngineEvent)
    requires TraceReady(events, observations, failures) && e.sequence == |events|
    requires e.kind.RunReceived? || e.kind.RunValidated? || e.kind.RunStarted? || e.kind.TurnTaken?
    ensures TraceReady(events + [e], observations, failures)
  {
    hide SequenceNumbers, Clean, Matched, CompletedObservations, Failures;
    ExtendClean(events, e);
    ExtendTrace(events, e);
  }

  lemma FailTrace(events: seq<EngineEvent>, observations: seq<EffectObservation>, failures: nat, e: EngineEvent)
    requires TraceReady(events, observations, failures) && e.sequence == |events| && e.kind.VerificationFailed?
    ensures TraceReady(events + [e], observations, failures + 1)
  {
    hide SequenceNumbers, Clean, Matched, CompletedObservations, Failures;
    ExtendClean(events, e);
    ExtendTrace(events, e);
  }

  predicate WithinLimits(u: Usage, limits: RunLimits) {
    TotalTokens(u) <= U64_MAX && TotalTokens(u) <= limits.maxTokens && u.outputBytes <= limits.maxOutputBytes
  }

  /** The summed usage does not fit its counters, or breaks the token limit. */
  predicate Overrun(u: Usage, limits: RunLimits) {
    !Representable(u) || TotalTokens(u) > U64_MAX || TotalTokens(u) > limits.maxTokens
  }

  /** One effect was admitted, and directly after it observed. */
  predicate Performed(before: seq<EngineEvent>, after: seq<EngineEvent>, id: string) {
    && |after| == |before| + 2 && after[..|before|] == before
    && after[|before|].kind == EffectAdmitted(id)
    && after[|before| + 1].kind.EffectObserved? && after[|before| + 1].kind.observation.effectId == id
  }

  /** A ready trace with a passed verification at its end. */
  predicate PassTrace(events: seq<EngineEvent>, failures: nat, report: Digest) {
    && events != []
    && events[|events| - 1].kind == VerificationPassed(report)
    && Clean(events[..|events| - 1]) && Matched(events[..|events| - 1])
    && Failures(events) == failures
  }

  lemma PassedTrace(events: seq<EngineEvent>, observations: seq<EffectObservation>, failures: nat, e: EngineEvent)
    requires TraceReady(events, observations, failures) && e.kind.VerificationPassed?
    ensures PassTrace(events + [e], failures, e.kind.report)
  {
    ExtendTrace(events, e);
    assert (events + [e])[..|events|] == events;
  }

  /** The codes that make a claim about the trace or the counters. */
  predicate MakesClaim(code: Code) {
    || code.TurnLimit? || code.OutputLimit? || code.VerificationFailure? || code.AdapterControlMutation?
    || code.EffectRunIdentityMismatch? || code.DuplicateEffect? || code.EffectNotAuthorized?
  }

  /** The claim of a code is true of the trace before the terminal event and of the counters. */
  predicate Explains(code: Code, events: seq<EngineEvent>, metrics: Metrics, limits: RunLimits) {
    MakesClaim(code) ==>
      if code.TurnLimit? then metrics.turns == limits.maxTurns
      else if code.OutputLimit? then metrics.usage.outputBytes > limits.maxOutputBytes
      else
        && events != []
        && var last := events[|events| - 1].kind;
           if code.VerificationFailure? then
             last.VerificationFailed? && metrics.repairAttempts == limits.maxRepairAttempts
           else if code.AdapterControlMutation? then last.ControlMutationRejected?
           else last.EffectDenied?
  }

  /** What any finished run promises. */
  predicate EndsOnce(o: RunOutcome) {
    && o.events != []
    && SequenceNumbers(o.events)
    && IsTerminal(o.terminalState)
    && o.events[|o.events| - 1].kind == RunEnded(o.terminalState)
    && o.events[|o.events| - 1].state == o.terminalState
    && (forall i | 0 <= i < |o.events| - 1 :: !o.events[i].kind.RunEnded?)
    && OnceEach(o.events)
    && o.observations == CompletedObservations(o.events)
    && (o.failureCode.None? <==> o.terminalState == Passed)
    && (o.failureCode.Some? ==> StateOfCode(o.failureCode.value) == o.terminalState)
    && o.failureCode != Some(InvalidInternalTransition)
  }

  /** What a passed run promises besides. */
  predicate PassSound(o: RunOutcome, limits: RunLimits) {
    var n := |o.events| - 2;
    && n >= 0
    && o.events[n].kind.VerificationPassed?
    && o.verifierReport == Some(o.events[n].kind.report)
    && Clean(o.events[..n])
    && Matched(o.events[..n])
    && WithinLimits(o.metrics.usage, limits)
    && Failures(o.events) == o.metrics.repairAttempts
  }

  predicate OutcomeSound(o: RunOutcome, limits: RunLimits) {
    && EndsOnce(o)
    && o.metrics.turns <= limits.maxTurns
    && o.metrics.repairAttempts <= limits.maxRepairAttempts
    && (o.failureCode.Some? ==> Explains(o.failureCode.value, o.events[..|o.events| - 1], o.metrics, limits))
    && (o.terminalState == Passed ==> PassSound(o, limits))
  }

  function SumUsage(turns: seq<AdapterTurn>): Usage {
    if turns == [] then NO_USAGE else Plus(SumUsage(turns[..|turns| - 1]), turns[|turns| - 1].usage)
  }

  lemma ExtendUsage(turns: seq<AdapterTurn>, turn: AdapterTurn)
    ensures SumUsage(turns + [turn]) == Plus(SumUsage(turns), turn.usage)
  {
    assert (turns + [turn])[..|turns|] == turns;
  }

  // ----- what the durable journal holds -----

  /** The state rebuilt from the durable events. */
  function Rebuilt(files: seq<EventFile>): Journal.Lifecycle
    requires LogSound(files)
  {
    DurableAccepted(files);
    Journal.Replay(Durable(files)).value
  }

  /** The effects with a durable intent, and their durable completions. */
  function RecordedEffects(files: seq<EventFile>): map<string, Journal.EffectEntry>
    requires LogSound(files)
  {
    Rebuilt(files).effects
  }

  /** A verification has durably begun. */
  predicate VerificationBegun(files: seq<EventFile>)
    requires LogSound(files)
  {
    Rebuilt(files).verificationSeen
  }

  /** The later directory knows everything the earlier one knew. */
  predicate Remembers(later: seq<EventFile>, earlier: seq<EventFile>)
    requires LogSound(later) && LogSound(earlier)
  {
    && (VerificationBegun(earlier) ==> VerificationBegun(later))
    && (forall id | id in RecordedEffects(earlier) ::
          && id in RecordedEffects(later)
          && (RecordedEffects(earlier)[id].completion.Some? ==>
                RecordedEffects(later)[id].completion == RecordedEffects(earlier)[id].completion))
  }

  lemma RecordRemembers(d: Disk, request: RunRequest, op: Operation, fault: Fault)
    requires LogSound(d.files)
    ensures LogSound(Perform(d, request, op, fault).0.files)
    ensures Remembers(Perform(d, request, op, fault).0.files, d.files)
    ensures Perform(d, request, op, fault).0.terminals == d.terminals
  {
    BindKeepsLog(d, request, fault);
    var d' := Perform(d, request, op, fault).0;
    var kind := RecordSplits(d, request, op, fault);
    if kind.Some? {
      AppendDurable(Bind(d, request, fault).0, kind.value, fault);
      DurableAccepted(d'.files);
      PrefixKeepsState(Durable(d.files), Durable(d'.files));
    }
  }

  /** No history of calls forgets an effect or its recorded observation. */
  lemma HistoryRemembers(hash: seq<byte> -> Digest, d: Disk, actions: seq<Action>)
    requires LogSound(d.files)
    ensures LogSound(AfterAll(hash, d, actions).files)
    ensures Remembers(AfterAll(hash, d, actions).files, d.files)
  {
    var after := AfterAll(hash, d, actions);
    HistoryGrows(hash, d, actions);
    DurableAccepted(after.files);
    PrefixKeepsState(Durable(d.files), Durable(after.files));
  }

  lemma RemembersChain(a: seq<EventFile>, b: seq<EventFile>, c: seq<EventFile>)
    requires LogSound(a) && LogSound(b) && LogSound(c) && Remembers(b, a) && Remembers(c, b)
    ensures Remembers(c, a)
  {
  }

  lemma ReadableIsDurable(files: seq<EventFile>)
    requires LogSound(files) && Load(files).Some?
    ensures Rebuilt(files) == Journal.Replay(Load(files).value).value
  {
    LoadGivesAll(files);
  }

  /** An append that reports success made its event durable. */
  lemma AppendedStep(d: Disk, kind: Journal.EventKind, fault: Fault)
    requires LogSound(d.files) && Append(d, kind, fault).1.Done?
    ensures LogSound(Append(d, kind, fault).0.files)
    ensures Load(d.files).Some?
    ensures var s := Journal.Replay(Load(d.files).value).value;
            Journal.StepKind(s, kind) == Some(Rebuilt(Append(d, kind, fault).0.files))
  {
    hide LogSound, Journal.StepKind, Journal.Step;
    AppendSound(d, kind, fault);
    var es := Load(d.files).value;
    var file := NewFile(es, kind, true);
    NamedExtend(d.files, file);
    AppendableIsStep(es, kind);
  }

  /** A record operation that reports success read the journal, decided, and appended what it decided. */
  lemma RecordDone(d: Disk, request: RunRequest, op: Operation, fault: Fault)
    requires Perform(d, request, op, fault).1.Done?
    ensures Load(d.files).Some?
    ensures var s := Journal.Replay(Load(d.files).value).value;
            Decide(s, op).Success?
            && (Decide(s, op).value.None? ==> Perform(d, request, op, fault).0 == Bind(d, request, fault).0)
            && (Decide(s, op).value.Some? ==>
                  Perform(d, request, op, fault) == Append(Bind(d, request, fault).0, Decide(s, op).value.value, fault))
  {
    BindKeepsLog(d, request, fault);
    var read := BoundRead(d, request, fault);
    assert Perform(d, request, op, fault) == Act(read.0, Journal.Replay(read.1.value).value, op, fault);
  }

  lemma EffectDecisions(s: Journal.Lifecycle, effect: EffectRequest, observation: EffectObservation)
    ensures Decide(s, BeginEffect(effect)).Success? ==>
              effect.effectId !in s.effects
              && Decide(s, BeginEffect(effect)) == Success(Some(Journal.EffectIntent(effect.effectId, effect.digest)))
    ensures Decide(s, FinishEffect(effect, observation)).Success? ==>
              observation.effectId == effect.effectId
              && Decide(s, FinishEffect(effect, observation)) == Success(Some(Journal.EffectCompleted(observation)))
  {
  }

  /** After a successful record operation the durable state is that of one validator step, if it appended. */
  lemma RecordedStep(d: Disk, request: RunRequest, op: Operation, fault: Fault) returns (s: Journal.Lifecycle)
    requires LogSound(d.files) && Perform(d, request, op, fault).1.Done?
    ensures LogSound(Perform(d, request, op, fault).0.files)
    ensures Rebuilt(d.files) == s && Decide(s, op).Success?
    ensures var rebuilt := Rebuilt(Perform(d, request, op, fault).0.files);
            match Decide(s, op).value
            case None => rebuilt == s
            case Some(kind) => Journal.StepKind(s, kind) == Some(rebuilt)
  {
    hide LogSound, Perform, Decide, Append, Bind, Rebuilt, Remembers, Load, Journal.StepKind, Journal.Replay;
    BindKeepsLog(d, request, fault);
    RecordDone(d, request, op, fault);
    ReadableIsDurable(d.files);
    RecordRemembers(d, request, op, fault);
    s := Rebuilt(d.files);
    if Decide(s, op).value.Some? {
      AppendedStep(Bind(d, request, fault).0, Decide(s, op).value.value, fault);
    }
  }

  lemma EffectSteps(s: Journal.Lifecycle, effect: EffectRequest, observation: EffectObservation)
    ensures var step := Journal.StepKind(s, Journal.EffectIntent(effect.effectId, effect.digest));
            step.Some? ==> effect.effectId in step.value.effects && !step.value.verificationSeen
    ensures var step := Journal.StepKind(s, Journal.EffectCompleted(observation));
            step.Some? ==> observation.effectId in step.value.effects
                           && step.value.effects[observation.effectId].completion == Some(observation)
  {
  }

  /** A reported intent was fresh before and is durable now, and no verification has begun. */
  lemma IntentBecomesDurable(d: Disk, request: RunRequest, effect: EffectRequest, fault: Fault)
    requires LogSound(d.files) && Perform(d, request, BeginEffect(effect), fault).1.Done?
    ensures var d' := Perform(d, request, BeginEffect(effect), fault).0;
            LogSound(d'.files)
            && effect.effectId !in RecordedEffects(d.files) && effect.effectId in RecordedEffects(d'.files)
            && !VerificationBegun(d'.files)
  {
    var observation := Journal.EffectObservation(effect.effectId, 0, [], [], effect.digest);
    var s := RecordedStep(d, request, BeginEffect(effect), fault);
    EffectDecisions(s, effect, observation);
    EffectSteps(s, effect, observation);
  }

  /** A reported completion is durable, exactly as observed. */
  lemma CompletionBecomesDurable(
    d: Disk, request: RunRequest, effect: EffectRequest, observation: EffectObservation, fault: Fault)
    requires LogSound(d.files) && Perform(d, request, FinishEffect(effect, observation), fault).1.Done?
    ensures var d' := Perform(d, request, FinishEffect(effect, observation), fault).0;
            LogSound(d'.files)
            && observation.effectId == effect.effectId && effect.effectId in RecordedEffects(d'.files)
            && RecordedEffects(d'.files)[effect.effectId].completion == Some(observation)
  {
    var s := RecordedStep(d, request, FinishEffect(effect, observation), fault);
    EffectDecisions(s, effect, observation);
    EffectSteps(s, effect, observation);
  }

  /** The durable journal ends with this verifier report, and every durable intent has its completion. */
  predicate ReportHeld(report: Digest, files: seq<EventFile>)
    requires LogSound(files)
  {
    && Durable(files) != []
    && Durable(files)[|Durable(files)| - 1].kind == Journal.VerifierRecorded(report)
    && Journal.AllCompleted(RecordedEffects(files))
  }

  lemma AppendedLast(d: Disk, kind: Journal.EventKind, fault: Fault)
    requires LogSound(d.files) && Append(d, kind, fault).1.Done?
    ensures LogSound(Append(d, kind, fault).0.files)
    ensures Durable(Append(d, kind, fault).0.files) == Named(d.files) + [NextEvent(Named(d.files), kind)]
  {
    AppendSound(d, kind, fault);
    NamedExtend(d.files, NewFile(Load(d.files).value, kind, true));
  }

  lemma ReportDecision(s: Journal.Lifecycle, report: Digest)
    requires Coherent(s)
    ensures Decide(s, Operation.RecordVerifier(report)).Success? ==>
              Decide(s, Operation.RecordVerifier(report)) == Success(Some(Journal.VerifierRecorded(report)))
              && Journal.AllCompleted(s.effects)
    ensures var step := Journal.StepKind(s, Journal.VerifierRecorded(report));
            step.Some? ==> step.value.effects == s.effects
  {
  }

  /** A report that was recorded is the last durable event, after all effects completed. */
  lemma ReportBecomesDurable(d: Disk, request: RunRequest, report: Digest, fault: Fault)
    requires LogSound(d.files) && Perform(d, request, Operation.RecordVerifier(report), fault).1.Done?
    ensures var d' := Perform(d, request, Operation.RecordVerifier(report), fault).0;
            LogSound(d'.files) && ReportHeld(report, d'.files)
  {
    var op := Operation.RecordVerifier(report);
    BindKeepsLog(d, request, fault);
    RecordDone(d, request, op, fault);
    var d1, es := Bind(d, request, fault).0, Load(d.files).value;
    AcceptedCoherent(es);
    ReportDecision(Journal.Replay(es).value, report);
    AppendedStep(d1, Journal.VerifierRecorded(report), fault);
    AppendedLast(d1, Journal.VerifierRecorded(report), fault);
  }

  lemma ReportMeansBegun(report: Digest, files: seq<EventFile>)
    requires LogSound(files) && ReportHeld(report, files)
    ensures VerificationBegun(files)
  {
    hide Coherent;
    DurableAccepted(files);
    RecordedIsSeen(Durable(files));
  }

  lemma RecordedIsSeen(es: seq<Journal.JournalEvent>)
    requires Journal.Accepted(es) && es != [] && es[|es| - 1].kind.VerifierRecorded?
    ensures Journal.Replay(es).value.verificationSeen
  {
    AcceptedCoherent(es);
    RecordCounts(Journal.Replay(es[..|es| - 1]).value, es[|es| - 1], |es| - 1);
  }

  lemma RecordCounts(s: Journal.Lifecycle, e: Journal.JournalEvent, index: nat)
    requires e.kind.VerifierRecorded? && Journal.Step(s, e, index).Some?
    ensures Journal.Step(s, e, index).value.verifierRecords > 0
  {
  }

  /** The turn is the one the durable capture ends with, if the journal belongs to a capture. */
  predicate TurnHeld(turn: Digest, files: seq<EventFile>)
    requires LogSound(files)
  {
    Rebuilt(files).provider.preparedRunDigest.None? || Rebuilt(files).provider.adapterTurnDigest == Some(turn)
  }

  lemma TurnDecision(s: Journal.Lifecycle, turn: Digest)
    ensures Decide(s, TurnNormalized(turn)).Success? ==>
              match Decide(s, TurnNormalized(turn)).value
              case None => s.provider.adapterTurnDigest == Some(turn)
              case Some(kind) =>
                var step := Journal.StepKind(s, kind);
                step.Some? ==> step.value.provider.adapterTurnDigest == Some(turn)
  {
  }

  /** A turn that was recorded, now or before, is the one that the durable capture ends with. */
  lemma TurnBecomesDurable(d: Disk, request: RunRequest, turn: Digest, fault: Fault)
    requires LogSound(d.files) && Perform(d, request, TurnNormalized(turn), fault).1.Done?
    ensures var d' := Perform(d, request, TurnNormalized(turn), fault).0;
            LogSound(d'.files) && TurnHeld(turn, d'.files)
  {
    hide LogSound, Perform, Decide, Rebuilt, Journal.StepKind;
    var s := RecordedStep(d, request, TurnNormalized(turn), fault);
    TurnDecision(s, turn);
  }

  /** The states that `effect_states` reports are those of the durable journal. */
  lemma RecordedStatesHeld(files: seq<EventFile>, id: string)
    requires LogSound(files) && Load(files).Some?
    ensures var state := RecordedState(Journal.Replay(Load(files).value).value, id);
            && (state.Unknown? ==> id in RecordedEffects(files))
            && (state.Completed? ==>
                  id in RecordedEffects(files)
                  && RecordedEffects(files)[id].completion == Some(state.observation)
                  && state.observation.effectId == id)
  {
    ReadableIsDurable(files);
    AcceptedCoherent(Load(files).value);
  }
}
