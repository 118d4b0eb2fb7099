/**
 The durable execution journal: its twelve event kinds, the lifecycle state that
 recovery rebuilds from them, and the one left-to-right validator
 (crates/ao-next-core/src/recovery.rs).
 */
module Journal {
  import opened Words
  import opened Wrappers

  /** A digest in its textual form. */
  type Digest = string

  const EVENT_SCHEMA: string := "ao.next.journal-event.v1"

  datatype EffectObservation = EffectObservation(
    effectId: string, status: int, stdout: seq<byte>, stderr: seq<byte>, outputDigest: Digest)

  datatype EventKind =
    | ProviderRequestIntent(preparedRunDigest: Digest, executionAuthorityDigest: Digest)
    | ProviderProcessStarted(invocationDigest: Digest)
    | ProviderOutputRetained(rawCaptureDigest: Digest)
    | ProviderCaptureIndexPublished(indexDigest: Digest)
    | ProviderCaptureVerified(verifiedIndexDigest: Digest)
    | AdapterTurnNormalized(turnDigest: Digest)
    | EffectIntent(effectId: string, effectDigest: Digest)
    | EffectCommitted(committedId: string)
    | EffectCompleted(observation: EffectObservation)
    | VerificationStarted(attempt: nat)
    | VerifierRecorded(reportDigest: Digest)
    | TerminalPublished(recordDigest: Digest)

  datatype JournalEvent = JournalEvent(schemaVersion: string, sequence: nat, kind: EventKind)

  datatype ProviderState = ProviderState(
    preparedRunDigest: Option<Digest>,
    executionAuthorityDigest: Option<Digest>,
    processStarted: bool,
    invocationDigest: Option<Digest>,
    rawCaptureDigest: Option<Digest>,
    captureIndexDigest: Option<Digest>,
    captureVerified: bool,
    adapterTurnDigest: Option<Digest>)

  datatype EffectEntry = EffectEntry(digest: Digest, completion: Option<EffectObservation>)

  /** The locals of the validating loop; recovery keeps the ones it needs. */
  datatype Lifecycle = Lifecycle(
    provider: ProviderState,
    providerStep: nat,
    effectSeen: bool,
    verificationSeen: bool,
    effects: map<string, EffectEntry>,
    legacyCommitted: set<string>,
    verifierRecords: nat,
    verificationOpen: bool,
    terminalDigest: Option<Digest>)

  const NO_PROVIDER: ProviderState := ProviderState(None, None, false, None, None, None, false, None)
  const INITIAL: Lifecycle := Lifecycle(NO_PROVIDER, 0, false, false, map[], {}, 0, false, None)

  /** The characters removed by `trim` (Unicode White_Space). */
  predicate IsWhiteSpace(c: char) {
    || '\U{0009}' <= c <= '\U{000D}' || c == '\U{0020}' || c == '\U{0085}' || c == '\U{00A0}'
    || c == '\U{1680}' || '\U{2000}' <= c <= '\U{200A}' || c == '\U{2028}' || c == '\U{2029}'
    || c == '\U{202F}' || c == '\U{205F}' || c == '\U{3000}'
  }

  predicate Blank(s: string) {
    forall i | 0 <= i < |s| :: IsWhiteSpace(s[i])
  }

  predicate ProviderReady(providerStep: nat) {
    providerStep == 0 || providerStep == 6
  }

  predicate AllCompleted(effects: map<string, EffectEntry>) {
    forall id | id in effects :: effects[id].completion.Some?
  }

  /** One iteration of the validator; `None` is its single error, EventSequenceInvalid. */
  function Step(s: Lifecycle, event: JournalEvent, index: nat): Option<Lifecycle> {
    if event.schemaVersion != EVENT_SCHEMA || event.sequence != index || s.terminalDigest.Some? then None
    else StepKind(s, event.kind)
  }

  function StepKind(s: Lifecycle, kind: EventKind): Option<Lifecycle> {
    if IsProviderKind(kind) then
      if s.effectSeen || s.verificationSeen then None else StepProvider(s, kind)
    else if IsEffectKind(kind) then
      if s.verificationSeen then None else StepEffect(s, kind)
    else StepVerification(s, kind)
  }

  predicate IsProviderKind(kind: EventKind) {
    || kind.ProviderRequestIntent? || kind.ProviderProcessStarted? || kind.ProviderOutputRetained?
    || kind.ProviderCaptureIndexPublished? || kind.ProviderCaptureVerified? || kind.AdapterTurnNormalized?
  }

  predicate IsEffectKind(kind: EventKind) {
    kind.EffectIntent? || kind.EffectCommitted? || kind.EffectCompleted?
  }

  function StepProvider(s: Lifecycle, kind: EventKind): Option<Lifecycle>
    requires IsProviderKind(kind)
  {
    match kind
    case ProviderRequestIntent(prepared, authority) =>
      if s.providerStep != 0 then None
      else Some(s.(providerStep := 1, provider := s.provider.(
          preparedRunDigest := Some(prepared), executionAuthorityDigest := Some(authority))))
    case ProviderProcessStarted(invocation) =>
      if s.providerStep != 1 then None
      else Some(s.(providerStep := 2, provider := s.provider.(
          processStarted := true, invocationDigest := Some(invocation))))
    case ProviderOutputRetained(raw) =>
      if s.providerStep != 2 then None
      else Some(s.(providerStep := 3, provider := s.provider.(rawCaptureDigest := Some(raw))))
    case ProviderCaptureIndexPublished(index) =>
      if s.providerStep != 3 then None
      else Some(s.(providerStep := 4, provider := s.provider.(captureIndexDigest := Some(index))))
    case ProviderCaptureVerified(index) =>
      if s.providerStep != 4 || s.provider.captureIndexDigest != Some(index) then None
      else Some(s.(providerStep := 5, provider := s.provider.(captureVerified := true)))
    case AdapterTurnNormalized(turn) =>
      if s.providerStep != 5 then None
      else Some(s.(providerStep := 6, provider := s.provider.(adapterTurnDigest := Some(turn))))
  }

  function StepEffect(s: Lifecycle, kind: EventKind): Option<Lifecycle>
    requires IsEffectKind(kind)
  {
    match kind
    case EffectIntent(id, digest) =>
      if Blank(id) || !ProviderReady(s.providerStep) || id in s.legacyCommitted || id in s.effects then None
      else Some(s.(effectSeen := true, effects := s.effects[id := EffectEntry(digest, None)]))
    case EffectCommitted(id) =>
      if Blank(id) || !ProviderReady(s.providerStep) || id in s.effects || id in s.legacyCommitted then None
      else Some(s.(effectSeen := true, legacyCommitted := s.legacyCommitted + {id}))
    case EffectCompleted(observation) =>
      var id := observation.effectId;
      if Blank(id) || id !in s.effects || s.effects[id].completion.Some? then None
      else Some(s.(effectSeen := true,
                   effects := s.effects[id := s.effects[id].(completion := Some(observation))]))
  }

  function StepVerification(s: Lifecycle, kind: EventKind): Option<Lifecycle>
    requires !IsProviderKind(kind) && !IsEffectKind(kind)
  {
    match kind
    case VerificationStarted(attempt) =>
      if !ProviderReady(s.providerStep) || s.verificationOpen || attempt != s.verifierRecords
         || !AllCompleted(s.effects) then None
      else Some(s.(verificationSeen := true, verificationOpen := true))
    case VerifierRecorded(_) =>
      if !s.verificationOpen || s.verifierRecords + 1 > U32_MAX then None
      else Some(s.(verificationOpen := false, verifierRecords := s.verifierRecords + 1))
    case TerminalPublished(record) =>
      if s.verificationOpen || s.verifierRecords == 0 then None
      else Some(s.(terminalDigest := Some(record)))
  }

  /** The state after a whole journal, or `None` when some event is refused. */
  function Replay(events: seq<JournalEvent>): Option<Lifecycle> {
    if events == [] then Some(INITIAL)
    else
      var last := |events| - 1;
      match Replay(events[..last])
      case None => None
      case Some(s) => Step(s, events[last], last)
  }

  predicate Accepted(events: seq<JournalEvent>) {
    Replay(events).Some?
  }

  lemma ReplayExtend(events: seq<JournalEvent>, event: JournalEvent)
    ensures Replay(events + [event]) ==
            match Replay(events) { case None => None case Some(s) => Step(s, event, |events|) }
  {
    assert (events + [event])[..|events|] == events;
  }

  /** Every prefix of an accepted journal is accepted. */
  lemma {:induction false} PrefixAccepted(events: seq<JournalEvent>, n: nat)
    requires n <= |events| && Accepted(events)
    ensures Accepted(events[..n])
    decreases |events| - n
  {
    if n < |events| {
      PrefixAccepted(events, n + 1);
      assert events[..n + 1] == events[..n] + [events[n]];
      ReplayExtend(events[..n], events[n]);
    } else {
      assert events[..n] == events;
    }
  }

  lemma {:induction false} PrefixRefused(events: seq<JournalEvent>, n: nat)
    requires n <= |events| && !Accepted(events[..n])
    ensures !Accepted(events)
  {
    if Accepted(events) { PrefixAccepted(events, n); }
  }

  lemma ReplayNext(events: seq<JournalEvent>, i: nat)
    requires i < |events|
    ensures Replay(events[..i + 1]) ==
            match Replay(events[..i]) { case None => None case Some(s) => Step(s, events[i], i) }
  {
    assert events[..i + 1] == events[..i] + [events[i]];
    ReplayExtend(events[..i], events[i]);
  }

  /** The six provider cases of the loop. */
  method ProviderCase(provider: ProviderState, providerStep: nat, kind: EventKind, ghost s: Lifecycle)
    returns (legal: bool, updated: ProviderState)
    requires IsProviderKind(kind) && s.provider == provider && s.providerStep == providerStep
    ensures StepProvider(s, kind) ==
            if legal then Some(s.(provider := updated, providerStep := providerStep + 1)) else None
  {
    match kind {
      case ProviderRequestIntent(prepared, authority) =>
        legal := providerStep == 0;
        updated := provider.(preparedRunDigest := Some(prepared), executionAuthorityDigest := Some(authority));
      case ProviderProcessStarted(invocation) =>
        legal := providerStep == 1;
        updated := provider.(processStarted := true, invocationDigest := Some(invocation));
      case ProviderOutputRetained(raw) =>
        legal := providerStep == 2;
        updated := provider.(rawCaptureDigest := Some(raw));
      case ProviderCaptureIndexPublished(index) =>
        legal := providerStep == 3;
        updated := provider.(captureIndexDigest := Some(index));
      case ProviderCaptureVerified(index) =>
        legal := providerStep == 4 && provider.captureIndexDigest == Some(index);
        updated := provider.(captureVerified := true);
      case AdapterTurnNormalized(turn) =>
        legal := providerStep == 5;
        updated := provider.(adapterTurnDigest := Some(turn));
    }
  }

  /** The three effect cases of the loop. */
  method EffectCase(effects: map<string, EffectEntry>, legacyCommitted: set<string>, providerStep: nat,
                    kind: EventKind, ghost s: Lifecycle)
    returns (legal: bool, known: map<string, EffectEntry>, committed: set<string>)
    requires IsEffectKind(kind) && s.effects == effects && s.legacyCommitted == legacyCommitted
    requires s.providerStep == providerStep
    ensures StepEffect(s, kind) ==
            if legal then Some(s.(effectSeen := true, effects := known, legacyCommitted := committed)) else None
  {
    known, committed := effects, legacyCommitted;
    match kind {
      case EffectIntent(id, digest) =>
        legal := !Blank(id) && ProviderReady(providerStep) && id !in legacyCommitted && id !in effects;
        known := effects[id := EffectEntry(digest, None)];
      case EffectCommitted(id) =>
        legal := !Blank(id) && ProviderReady(providerStep) && id !in effects && id !in legacyCommitted;
        committed := legacyCommitted + {id};
      case EffectCompleted(observation) =>
        var id := observation.effectId;
        legal := !Blank(id) && id in effects && effects[id].completion.None?;
        if legal { known := effects[id := effects[id].(completion := Some(observation))]; }
    }
  }

  /** `validate_journal_lifecycle`: one pass that updates the lifecycle locals. */
  method ValidateJournalLifecycle(events: seq<JournalEvent>) returns (r: Option<Lifecycle>)
    ensures r == Replay(events)
  {
    hide StepProvider, StepEffect, AllCompleted;
    var provider := NO_PROVIDER;
    var effectSeen, verificationSeen := false, false;
    var providerStep := 0;
    var effects: map<string, EffectEntry> := map[];
    var legacyCommitted: set<string> := {};
    var verifierRecords := 0;
    var verificationOpen := false;
    var terminalDigest: Option<Digest> := None;

    for i := 0 to |events|
      invariant Replay(events[..i]) == Some(Lifecycle(
        provider, providerStep, effectSeen, verificationSeen, effects, legacyCommitted,
        verifierRecords, verificationOpen, terminalDigest))
    {
      var event := events[i];
      ghost var before := Lifecycle(
        provider, providerStep, effectSeen, verificationSeen, effects, legacyCommitted,
        verifierRecords, verificationOpen, terminalDigest);
      var legal := event.schemaVersion == EVENT_SCHEMA && event.sequence == i && terminalDigest.None?;
      if legal && IsProviderKind(event.kind) {
        var fits, updated := ProviderCase(provider, providerStep, event.kind, before);
        legal := fits && !effectSeen && !verificationSeen;
        provider, providerStep := updated, providerStep + 1;
      } else if legal && IsEffectKind(event.kind) {
        var fits, known, committed := EffectCase(effects, legacyCommitted, providerStep, event.kind, before);
        legal := fits && !verificationSeen;
        effects, legacyCommitted, effectSeen := known, committed, true;
      } else if legal {
        match event.kind {
          case VerificationStarted(attempt) =>
            legal := ProviderReady(providerStep) && !verificationOpen && attempt == verifierRecords
                     && AllCompleted(effects);
            verificationSeen := true;
            verificationOpen := true;
          case VerifierRecorded(_) =>
            legal := verificationOpen && verifierRecords < U32_MAX;
            verificationOpen := false;
            verifierRecords := verifierRecords + 1;
          case TerminalPublished(record) =>
            legal := !verificationOpen && verifierRecords != 0;
            terminalDigest := Some(record);
        }
      }
      assert Step(before, event, i) == if !legal then None else Some(Lifecycle(
        provider, providerStep, effectSeen, verificationSeen, effects, legacyCommitted,
        verifierRecords, verificationOpen, terminalDigest));
      ReplayNext(events, i);
      if !legal {
        PrefixRefused(events, i + 1);
        return None;
      }
    }
    assert events[..|events|] == events;
    return Some(Lifecycle(
      provider, providerStep, effectSeen, verificationSeen, effects, legacyCommitted,
      verifierRecords, verificationOpen, terminalDigest));
  }
}
