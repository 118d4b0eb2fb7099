/**
 The `record_*` methods of the checkpoint journal look at the rebuilt state before they
 append. These are those local checks, and what they miss: for every operation, the exact
 condition under which the checked append is also legal for the full validator.
 */
module Recorders {
  import opened Words
  import opened Wrappers
  import opened Journal
  import opened JournalGrammar

  datatype RecoveryError =
    | Io
    | IdentityMismatch
    | EventSequenceInvalid
    | EventDigestMismatch
    | EffectIdentityMismatch
    | VerifierEventMissing

  /** An effect request, carrying its canonical digest. */
  datatype EffectRequest = EffectRequest(runId: string, effectId: string, digest: Digest)

  datatype EffectState = Fresh | Unknown | Completed(observation: EffectObservation)

  datatype Operation =
    | ProviderIntent(prepared: Digest, authority: Digest)
    | ProcessStarted(invocation: Digest)
    | OutputRetained(raw: Digest)
    | CapturePublished(published: Digest)
    | CaptureVerified(verified: Digest)
    | TurnNormalized(turn: Digest)
    | BeginEffect(effect: EffectRequest)
    | FinishEffect(finished: EffectRequest, observation: EffectObservation)
    | BeginVerification
    | RecordVerifier(report: Digest)

  predicate ReadyForEffects(p: ProviderState) {
    !(p.preparedRunDigest.Some? && p.adapterTurnDigest.None?)
  }

  /** `JournalLifecycle::verification_seen`, computed from what recovery keeps. */
  predicate SeenVerification(s: Lifecycle) {
    s.verificationOpen || s.verifierRecords > 0 || s.terminalDigest.Some?
  }

  /** `effect_state`. */
  function StateOf(s: Lifecycle, effect: EffectRequest): Result<EffectState, RecoveryError> {
    if !ReadyForEffects(s.provider) then Failure(EventSequenceInvalid)
    else if effect.effectId !in s.effects then
      if SeenVerification(s) then Failure(EventSequenceInvalid) else Success(Fresh)
    else if s.effects[effect.effectId].digest != effect.digest then Failure(EffectIdentityMismatch)
    else match s.effects[effect.effectId].completion
      case None => Success(Unknown)
      case Some(o) => Success(Completed(o))
  }

  /**
   What an operation decides from the loaded state: an error, nothing to do, or the one
   event it will try to append.
   */
  function Decide(s: Lifecycle, op: Operation): Result<Option<EventKind>, RecoveryError> {
    match op
    case ProviderIntent(prepared, authority) =>
      if s.provider.preparedRunDigest.Some? || s.effectSeen then Failure(EventSequenceInvalid)
      else Success(Some(ProviderRequestIntent(prepared, authority)))
    case ProcessStarted(invocation) =>
      if s.provider.preparedRunDigest.None? || s.provider.invocationDigest.Some? then Failure(EventSequenceInvalid)
      else Success(Some(ProviderProcessStarted(invocation)))
    case OutputRetained(raw) =>
      if s.provider.invocationDigest.None? || s.provider.rawCaptureDigest.Some? then Failure(EventSequenceInvalid)
      else Success(Some(ProviderOutputRetained(raw)))
    case CapturePublished(index) =>
      if s.provider.rawCaptureDigest.None? || s.provider.captureIndexDigest.Some? then Failure(EventSequenceInvalid)
      else Success(Some(ProviderCaptureIndexPublished(index)))
    case CaptureVerified(index) =>
      if s.provider.captureIndexDigest != Some(index) || s.provider.captureVerified then
        Failure(EventSequenceInvalid)
      else Success(Some(ProviderCaptureVerified(index)))
    case TurnNormalized(turn) =>
      if !s.provider.captureVerified then Failure(EventSequenceInvalid)
      else if s.provider.adapterTurnDigest == Some(turn) then Success(None)
      else if s.provider.adapterTurnDigest.Some? then Failure(EventDigestMismatch)
      else Success(Some(AdapterTurnNormalized(turn)))
    case BeginEffect(effect) =>
      (match StateOf(s, effect)
       case Failure(e) => Failure(e)
       case Success(Fresh) => Success(Some(EffectIntent(effect.effectId, effect.digest)))
       case Success(_) => Failure(EventSequenceInvalid))
    case FinishEffect(effect, observation) =>
      if observation.effectId != effect.effectId then Failure(EffectIdentityMismatch)
      else (match StateOf(s, effect)
            case Failure(e) => Failure(e)
            case Success(Unknown) => Success(Some(EffectCompleted(observation)))
            case Success(_) => Failure(EffectIdentityMismatch))
    case BeginVerification =>
      if !ReadyForEffects(s.provider) || s.terminalDigest.Some? then Failure(EventSequenceInvalid)
      else if s.verificationOpen then Success(None)
      else Success(Some(VerificationStarted(s.verifierRecords)))
    case RecordVerifier(report) =>
      if !ReadyForEffects(s.provider) || !s.verificationOpen || s.terminalDigest.Some? then
        Failure(EventSequenceInvalid)
      else Success(Some(VerifierRecorded(report)))
  }

  /** The event kind an operation exists to append. */
  function Target(s: Lifecycle, op: Operation): EventKind {
    match op
    case ProviderIntent(prepared, authority) => ProviderRequestIntent(prepared, authority)
    case ProcessStarted(invocation) => ProviderProcessStarted(invocation)
    case OutputRetained(raw) => ProviderOutputRetained(raw)
    case CapturePublished(index) => ProviderCaptureIndexPublished(index)
    case CaptureVerified(index) => ProviderCaptureVerified(index)
    case TurnNormalized(turn) => AdapterTurnNormalized(turn)
    case BeginEffect(effect) => EffectIntent(effect.effectId, effect.digest)
    case FinishEffect(_, observation) => EffectCompleted(observation)
    case BeginVerification => VerificationStarted(s.verifierRecords)
    case RecordVerifier(report) => VerifierRecorded(report)
  }

  function NextEvent(es: seq<JournalEvent>, kind: EventKind): JournalEvent {
    JournalEvent(EVENT_SCHEMA, |es|, kind)
  }

  predicate Appendable(es: seq<JournalEvent>, kind: EventKind) {
    Accepted(es + [NextEvent(es, kind)])
  }

  /** What every state rebuilt from an accepted journal satisfies. */
  predicate Coherent(s: Lifecycle) {
    && (s.provider.preparedRunDigest.Some? <==> s.providerStep > 0)
    && (s.provider.invocationDigest.Some? <==> s.providerStep > 1)
    && (s.provider.rawCaptureDigest.Some? <==> s.providerStep > 2)
    && (s.provider.captureIndexDigest.Some? <==> s.providerStep > 3)
    && (s.provider.captureVerified <==> s.providerStep > 4)
    && (s.provider.adapterTurnDigest.Some? <==> s.providerStep > 5)
    && s.providerStep <= 6
    && (s.effectSeen <==> s.effects != map[] || s.legacyCommitted != {})
    && (0 < s.providerStep < 6 ==> !s.effectSeen && !s.verificationSeen)
    && (s.verificationSeen <==> SeenVerification(s))
    && (s.verificationSeen ==> AllCompleted(s.effects))
    && (s.terminalDigest.Some? ==> s.verifierRecords > 0 && !s.verificationOpen)
    && (forall id | id in s.effects :: !Blank(id) && id !in s.legacyCommitted)
    && (forall id | id in s.effects && s.effects[id].completion.Some? ::
          s.effects[id].completion.value.effectId == id)
  }

  lemma StepCoherent(s: Lifecycle, kind: EventKind, s': Lifecycle)
    requires Coherent(s) && s.terminalDigest.None? && StepKind(s, kind) == Some(s')
    ensures Coherent(s')
  {
    if IsEffectKind(kind) {
      assert EffectId(kind) in s'.effects || EffectId(kind) in s'.legacyCommitted;
    }
  }

  lemma {:induction false} AcceptedCoherent(es: seq<JournalEvent>)
    requires Accepted(es)
    ensures Coherent(Replay(es).value)
  {
    if es != [] {
      var n := |es| - 1;
      assert es == es[..n] + [es[n]];
      ReplayExtend(es[..n], es[n]);
      AcceptedCoherent(es[..n]);
      StepCoherent(Replay(es[..n]).value, es[n].kind, Replay(es).value);
    }
  }

  /** Appending is exactly one more step of the validator. */
  lemma AppendableIsStep(es: seq<JournalEvent>, kind: EventKind)
    requires Accepted(es)
    ensures Appendable(es, kind) <==>
            Replay(es).value.terminalDigest.None? && StepKind(Replay(es).value, kind).Some?
    ensures Appendable(es, kind) ==>
              Replay(es + [NextEvent(es, kind)]) == StepKind(Replay(es).value, kind)
  {
    ReplayExtend(es, NextEvent(es, kind));
  }

  predicate IsCaptureRecorder(op: Operation) {
    op.ProcessStarted? || op.OutputRetained? || op.CapturePublished? || op.CaptureVerified? || op.TurnNormalized?
  }

  /**
   From process start to turn normalisation the cheap local check is exact: it chooses to
   append precisely when the full validator accepts the longer journal.
   */
  lemma CaptureGuardsExact(es: seq<JournalEvent>, op: Operation)
    requires Accepted(es) && IsCaptureRecorder(op)
    ensures Decide(Replay(es).value, op) == Success(Some(Target(Replay(es).value, op)))
            <==> Appendable(es, Target(Replay(es).value, op))
  {
    AcceptedCoherent(es);
    AppendableIsStep(es, Target(Replay(es).value, op));
  }

  /**
   The other local checks are weaker than the validator. This is everything they leave to it.
   */
  predicate LeftToValidator(s: Lifecycle, op: Operation) {
    match op
    case ProviderIntent(_, _) => !s.verificationSeen
    case BeginEffect(effect) => !Blank(effect.effectId) && effect.effectId !in s.legacyCommitted
    case BeginVerification => AllCompleted(s.effects)
    case RecordVerifier(_) => s.verifierRecords < U32_MAX
    case _ => true
  }

  lemma GuardsCompletedByValidator(es: seq<JournalEvent>, op: Operation)
    requires Accepted(es)
    requires Decide(Replay(es).value, op) == Success(Some(Target(Replay(es).value, op)))
    ensures Appendable(es, Target(Replay(es).value, op)) <==> LeftToValidator(Replay(es).value, op)
  {
    if IsCaptureRecorder(op) {
      CaptureGuardsExact(es, op);
    } else {
      AcceptedCoherent(es);
      var s := Replay(es).value;
      AppendableIsStep(es, Target(s, op));
      DecidedStep(s, op);
    }
  }

  lemma DecidedStep(s: Lifecycle, op: Operation)
    requires Coherent(s) && !IsCaptureRecorder(op) && Decide(s, op) == Success(Some(Target(s, op)))
    ensures s.terminalDigest.None? && StepKind(s, Target(s, op)).Some? <==> LeftToValidator(s, op)
  {
  }

  /** A completion names the effect it is recorded for, with the digest of its intent. */
  predicate CompletionMatches(s: Lifecycle, effect: EffectRequest, observation: EffectObservation) {
    && observation.effectId == effect.effectId
    && effect.effectId in s.effects && s.effects[effect.effectId].digest == effect.digest
  }

  /**
   Where the validator would accept the append, the check lets it through, except that it also
   compares a completion with the request it is recorded for, which the validator never sees.
   */
  lemma GuardsNeverTooStrict(es: seq<JournalEvent>, op: Operation)
    requires Accepted(es) && Appendable(es, Target(Replay(es).value, op))
    ensures Decide(Replay(es).value, op) == Success(Some(Target(Replay(es).value, op))) <==>
            (op.FinishEffect? ==> CompletionMatches(Replay(es).value, op.finished, op.observation))
  {
    AcceptedCoherent(es);
    AppendableIsStep(es, Target(Replay(es).value, op));
    StepDecided(Replay(es).value, op);
  }

  lemma StepDecided(s: Lifecycle, op: Operation)
    requires Coherent(s) && s.terminalDigest.None? && StepKind(s, Target(s, op)).Some?
    ensures Decide(s, op) == Success(Some(Target(s, op))) <==>
            (op.FinishEffect? ==> CompletionMatches(s, op.finished, op.observation))
  {
  }

  /** While a capture is under way nothing but the capture may be recorded. */
  lemma CaptureExcludesEverythingElse(es: seq<JournalEvent>, kind: EventKind)
    requires Accepted(es) && 0 < Replay(es).value.providerStep < 6
    ensures Appendable(es, kind) ==> IsProviderKind(kind) && Link(kind) == Replay(es).value.providerStep
    ensures forall op: Operation | op.BeginEffect? || op.FinishEffect? || op.BeginVerification? || op.RecordVerifier? ::
              Decide(Replay(es).value, op).Failure?
  {
    hide Decide;
    AcceptedCoherent(es);
    AppendableIsStep(es, kind);
    forall op: Operation | op.BeginEffect? || op.FinishEffect? || op.BeginVerification? || op.RecordVerifier?
      ensures Decide(Replay(es).value, op).Failure?
    {
      CaptureRefuses(Replay(es).value, op);
    }
  }

  lemma CaptureRefuses(s: Lifecycle, op: Operation)
    requires Coherent(s) && 0 < s.providerStep < 6
    requires op.BeginEffect? || op.FinishEffect? || op.BeginVerification? || op.RecordVerifier?
    ensures Decide(s, op).Failure?
  {
  }

  /** The provider is started at most once in the life of a journal. */
  lemma ProviderStartedOnce(es: seq<JournalEvent>, i: nat, j: nat)
    requires Accepted(es) && i < |es| && j < |es|
    requires IsProviderKind(es[i].kind) && IsProviderKind(es[j].kind) && Link(es[i].kind) == Link(es[j].kind)
    ensures i == j
  {
    var sh := AcceptedFits(es);
    ProviderOnlyInPrefix(es, sh, i);
    ProviderOnlyInPrefix(es, sh, j);
  }

  lemma NoProviderAfterPrefix(es: seq<JournalEvent>, sh: Shape, i: nat)
    requires Fits(es, sh) && sh.provider <= i < |es|
    ensures !IsProviderKind(es[i].kind)
  {
    if sh.verify <= i < sh.verify + 2 * sh.rounds {
      assert Round(es, sh.verify, (i - sh.verify) / 2);
    }
  }

  lemma ProviderOnlyInPrefix(es: seq<JournalEvent>, sh: Shape, i: nat)
    requires Fits(es, sh) && i < |es| && IsProviderKind(es[i].kind)
    ensures i < sh.provider
  {
    if sh.provider <= i { NoProviderAfterPrefix(es, sh, i); }
  }
}
