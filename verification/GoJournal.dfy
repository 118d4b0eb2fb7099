/**
 The second journal validator, written independently for AO Mission
 (mission/internal/mission/ao_next_journal_prefix.go), with different state: one merged map of
 effects, a look at the previous event, a counter that wraps. It accepts the same journals.
 */
module GoJournal {
  import opened Words
  import opened Wrappers
  import opened Journal
  import opened JournalGrammar
  import opened Recorders

  const EVENT_LIMIT: nat := 4096
  const TWO_TO_THE_32: nat := 0x1_0000_0000

  /** The Go lifecycle struct together with the loop's local set of legacy ids. */
  datatype GoState = GoState(
    providerStep: nat,
    effects: map<string, bool>,
    legacyEffects: set<string>,
    verificationSeen: bool,
    verificationOpen: bool,
    verifierRecords: nat,
    verifierDigest: Digest,
    published: bool)

  const GO_INITIAL: GoState := GoState(0, map[], {}, false, false, 0, "", false)

  /** The `index_digest` field of an event, empty for the kinds that have none. */
  function IndexDigest(kind: EventKind): Digest {
    match kind
    case ProviderCaptureIndexPublished(d) => d
    case ProviderCaptureVerified(d) => d
    case _ => ""
  }

  predicate AllTrue(effects: map<string, bool>) {
    forall id | id in effects :: effects[id]
  }

  function GoStep(s: GoState, kind: EventKind, previous: Digest): Option<GoState> {
    if s.published then None
    else if IsProviderKind(kind) then GoProvider(s, kind, previous)
    else if IsEffectKind(kind) then GoEffect(s, kind)
    else GoVerification(s, kind)
  }

  function GoProvider(s: GoState, kind: EventKind, previous: Digest): Option<GoState>
    requires IsProviderKind(kind)
  {
    match kind
    case ProviderRequestIntent(prepared, authority) =>
      if s.providerStep != 0 || |s.effects| != 0 || s.verificationSeen
         || !ValidDigest(prepared) || !ValidDigest(authority) then None
      else Some(s.(providerStep := 1))
    case ProviderProcessStarted(invocation) =>
      if s.providerStep != 1 || s.verificationSeen || !ValidDigest(invocation) then None
      else Some(s.(providerStep := 2))
    case ProviderOutputRetained(raw) =>
      if s.providerStep != 2 || s.verificationSeen || !ValidDigest(raw) then None
      else Some(s.(providerStep := 3))
    case ProviderCaptureIndexPublished(index) =>
      if s.providerStep != 3 || !ValidDigest(index) then None else Some(s.(providerStep := 4))
    case ProviderCaptureVerified(index) =>
      if s.providerStep != 4 || !ValidDigest(index) || index != previous then None
      else Some(s.(providerStep := 5))
    case AdapterTurnNormalized(turn) =>
      if s.providerStep != 5 || !ValidDigest(turn) then None else Some(s.(providerStep := 6))
  }

  function GoEffect(s: GoState, kind: EventKind): Option<GoState>
    requires IsEffectKind(kind)
  {
    match kind
    case EffectIntent(id, digest) =>
      if s.verificationSeen || !ProviderReady(s.providerStep) || Blank(id) || !ValidDigest(digest)
         || id in s.effects || id in s.legacyEffects then None
      else Some(s.(effects := s.effects[id := false]))
    case EffectCommitted(id) =>
      if s.verificationSeen || !ProviderReady(s.providerStep) || Blank(id)
         || id in s.effects || id in s.legacyEffects then None
      else Some(s.(effects := s.effects[id := true], legacyEffects := s.legacyEffects + {id}))
    case EffectCompleted(observation) =>
      var id := observation.effectId;
      if id !in s.effects || s.effects[id] || s.verificationSeen || id == ""
         || !ValidDigest(observation.outputDigest) then None
      else Some(s.(effects := s.effects[id := true]))
  }

  function GoVerification(s: GoState, kind: EventKind): Option<GoState>
    requires !IsProviderKind(kind) && !IsEffectKind(kind)
  {
    match kind
    case VerificationStarted(attempt) =>
      if !ProviderReady(s.providerStep) || s.verificationOpen || attempt != s.verifierRecords
         || !AllTrue(s.effects) then None
      else Some(s.(verificationSeen := true, verificationOpen := true))
    case VerifierRecorded(report) =>
      if !s.verificationOpen || !ValidDigest(report) then None
      else Some(s.(verificationOpen := false, verifierDigest := report,
                   verifierRecords := (s.verifierRecords + 1) % TWO_TO_THE_32))
    case TerminalPublished(record) =>
      if s.verificationOpen || s.verifierRecords == 0 || !ValidDigest(record) then None
      else Some(s.(published := true))
  }

  function Previous(events: seq<JournalEvent>, n: nat): Digest
    requires n <= |events|
  {
    if n == 0 then "" else IndexDigest(events[n - 1].kind)
  }

  function GoReplay(events: seq<JournalEvent>): Option<GoState> {
    if events == [] then Some(GO_INITIAL)
    else
      var last := |events| - 1;
      match GoReplay(events[..last])
      case None => None
      case Some(s) => GoStep(s, events[last].kind, Previous(events, last))
  }

  lemma GoReplayNext(events: seq<JournalEvent>, i: nat)
    requires i < |events|
    ensures GoReplay(events[..i + 1]) ==
            match GoReplay(events[..i]) {
              case None => None
              case Some(s) => GoStep(s, events[i].kind, Previous(events, i)) }
    ensures GoReplay(events[..i + 1]).None? ==> GoReplay(events).None?
  {
    assert events[..i + 1][..i] == events[..i];
    if GoReplay(events[..i + 1]).None? { GoRefused(events, i + 1); }
  }

  lemma {:induction false} GoRefused(events: seq<JournalEvent>, n: nat)
    requires n <= |events| && GoReplay(events[..n]).None?
    ensures GoReplay(events).None?
  {
    hide GoStep, Previous;
    if n == |events| {
      assert events[..n] == events;
    } else {
      var last := |events| - 1;
      assert events[..last][..n] == events[..n];
      GoRefused(events[..last], n);
    }
  }

  // ----- the two validators agree -----

  /** Every digest in the event is well formed; the Rust types admit no other. */
  predicate DigestsWellFormed(kind: EventKind) {
    match kind
    case ProviderRequestIntent(prepared, authority) => ValidDigest(prepared) && ValidDigest(authority)
    case ProviderProcessStarted(d) => ValidDigest(d)
    case ProviderOutputRetained(d) => ValidDigest(d)
    case ProviderCaptureIndexPublished(d) => ValidDigest(d)
    case ProviderCaptureVerified(d) => ValidDigest(d)
    case AdapterTurnNormalized(d) => ValidDigest(d)
    case EffectIntent(_, d) => ValidDigest(d)
    case EffectCommitted(_) => true
    case EffectCompleted(o) => ValidDigest(o.outputDigest)
    case VerificationStarted(_) => true
    case VerifierRecorded(d) => ValidDigest(d)
    case TerminalPublished(d) => ValidDigest(d)
  }

  predicate AllDigestsWellFormed(events: seq<JournalEvent>) {
    forall i | 0 <= i < |events| :: DigestsWellFormed(events[i].kind)
  }

  /** The merged Go map is the Rust effect map and the legacy set taken together. */
  predicate Merged(effects: map<string, bool>, s: Lifecycle) {
    && effects.Keys == s.effects.Keys + s.legacyCommitted
    && (forall id | id in s.effects :: effects[id] == s.effects[id].completion.Some?)
    && (forall id | id in s.legacyCommitted :: effects[id])
  }

  predicate SameState(g: GoState, s: Lifecycle, previous: Digest) {
    && Coherent(s)
    && g.providerStep == s.providerStep
    && Merged(g.effects, s) && g.legacyEffects == s.legacyCommitted
    && g.verificationSeen == s.verificationSeen
    && g.verificationOpen == s.verificationOpen
    && g.verifierRecords == s.verifierRecords
    && (g.published <==> s.terminalDigest.Some?)
    && (s.providerStep == 4 ==> s.provider.captureIndexDigest == Some(previous))
  }

  lemma EffectDecided(g: GoState, s: Lifecycle, previous: Digest, kind: EventKind)
    requires SameState(g, s, previous) && !g.published && IsEffectKind(kind)
    ensures GoStep(g, kind, previous).Some? <==> StepKind(s, kind).Some? && DigestsWellFormed(kind)
  {
    if kind.EffectCompleted? {
      var id := kind.observation.effectId;
      assert id in s.effects ==> !Blank(id);
    }
  }

  lemma EffectMerged(g: GoState, s: Lifecycle, previous: Digest, kind: EventKind)
    requires SameState(g, s, previous) && !g.published && IsEffectKind(kind)
    requires GoStep(g, kind, previous).Some? && StepKind(s, kind).Some?
    ensures SameState(GoStep(g, kind, previous).value, StepKind(s, kind).value, IndexDigest(kind))
  {
    hide Coherent, Merged;
    StepCoherent(s, kind, StepKind(s, kind).value);
    MergedStep(g, s, previous, kind);
    assert s.providerStep != 4 by { EffectsAfterCapture(s, kind); }
  }

  lemma EffectsAfterCapture(s: Lifecycle, kind: EventKind)
    requires Coherent(s) && IsEffectKind(kind) && StepKind(s, kind).Some?
    ensures s.providerStep != 4
  {
  }

  lemma MergedStep(g: GoState, s: Lifecycle, previous: Digest, kind: EventKind)
    requires Merged(g.effects, s) && g.legacyEffects == s.legacyCommitted && IsEffectKind(kind)
    requires GoStep(g, kind, previous).Some? && StepKind(s, kind).Some?
    ensures Merged(GoStep(g, kind, previous).value.effects, StepKind(s, kind).value)
  {
    hide Blank, ProviderReady, ValidDigest;
  }

  lemma EffectsAgree(g: GoState, s: Lifecycle, previous: Digest, kind: EventKind)
    requires SameState(g, s, previous) && !g.published && IsEffectKind(kind)
    ensures GoStep(g, kind, previous).Some? <==> StepKind(s, kind).Some? && DigestsWellFormed(kind)
    ensures GoStep(g, kind, previous).Some? ==>
              SameState(GoStep(g, kind, previous).value, StepKind(s, kind).value, IndexDigest(kind))
  {
    hide SameState, GoStep, StepKind, DigestsWellFormed;
    EffectDecided(g, s, previous, kind);
    if GoStep(g, kind, previous).Some? { EffectMerged(g, s, previous, kind); }
  }

  lemma ProvidersAgree(g: GoState, s: Lifecycle, previous: Digest, kind: EventKind)
    requires SameState(g, s, previous) && !g.published && IsProviderKind(kind)
    ensures GoStep(g, kind, previous).Some? <==> StepKind(s, kind).Some? && DigestsWellFormed(kind)
    ensures GoStep(g, kind, previous).Some? ==>
              SameState(GoStep(g, kind, previous).value, StepKind(s, kind).value, IndexDigest(kind))
  {
    if StepKind(s, kind).Some? { StepCoherent(s, kind, StepKind(s, kind).value); }
    assert |g.effects| == 0 <==> !s.effectSeen by { NoEffects(g.effects, s); }
  }

  lemma NoEffects(effects: map<string, bool>, s: Lifecycle)
    requires Merged(effects, s) && Coherent(s)
    ensures |effects| == 0 <==> !s.effectSeen
  {
    if |effects| == 0 {
      assert effects == map[];
      assert s.effects == map[] && s.legacyCommitted == {};
    } else {
      var id :| id in effects;
    }
  }

  lemma VerificationsAgree(g: GoState, s: Lifecycle, previous: Digest, kind: EventKind)
    requires SameState(g, s, previous) && !g.published && !IsProviderKind(kind) && !IsEffectKind(kind)
    requires kind.VerifierRecorded? ==> s.verifierRecords < U32_MAX
    ensures GoStep(g, kind, previous).Some? <==> StepKind(s, kind).Some? && DigestsWellFormed(kind)
    ensures GoStep(g, kind, previous).Some? ==>
              SameState(GoStep(g, kind, previous).value, StepKind(s, kind).value, IndexDigest(kind))
  {
    if StepKind(s, kind).Some? { StepCoherent(s, kind, StepKind(s, kind).value); }
    assert AllTrue(g.effects) <==> AllCompleted(s.effects);
  }

  lemma StepsAgree(g: GoState, s: Lifecycle, previous: Digest, kind: EventKind)
    requires SameState(g, s, previous) && (kind.VerifierRecorded? ==> s.verifierRecords < U32_MAX)
    ensures GoStep(g, kind, previous).Some? <==>
              s.terminalDigest.None? && StepKind(s, kind).Some? && DigestsWellFormed(kind)
    ensures GoStep(g, kind, previous).Some? ==>
              SameState(GoStep(g, kind, previous).value, StepKind(s, kind).value, IndexDigest(kind))
  {
    if !g.published {
      if IsProviderKind(kind) {
        ProvidersAgree(g, s, previous, kind);
      } else if IsEffectKind(kind) {
        EffectsAgree(g, s, previous, kind);
      } else {
        VerificationsAgree(g, s, previous, kind);
      }
    }
  }

  /** The number of verifier records in a journal. */
  function Records(es: seq<JournalEvent>): nat {
    if es == [] then 0
    else Records(es[..|es| - 1]) + if es[|es| - 1].kind.VerifierRecorded? then 1 else 0
  }

  lemma {:induction false} RecordsAtMost(es: seq<JournalEvent>)
    ensures Records(es) <= |es|
  {
    if es != [] { RecordsAtMost(es[..|es| - 1]); }
  }

  lemma StepCountsRecords(s: Lifecycle, kind: EventKind)
    requires StepKind(s, kind).Some?
    ensures StepKind(s, kind).value.verifierRecords == s.verifierRecords + if kind.VerifierRecorded? then 1 else 0
    ensures kind.VerifierRecorded? ==> s.verifierRecords < U32_MAX
  {
  }

  /** The counter of an accepted journal is the number of its records. */
  lemma {:induction false} CounterIsRecords(es: seq<JournalEvent>)
    requires Accepted(es)
    ensures Replay(es).value.verifierRecords == Records(es) <= U32_MAX
  {
    if es != [] {
      var n := |es| - 1;
      ReplayNext(es, n);
      assert es[..n + 1] == es;
      CounterIsRecords(es[..n]);
      StepCountsRecords(Replay(es[..n]).value, es[n].kind);
    }
  }

  lemma LastDigest(es: seq<JournalEvent>)
    requires es != []
    ensures AllDigestsWellFormed(es) <==>
            AllDigestsWellFormed(es[..|es| - 1]) && DigestsWellFormed(es[|es| - 1].kind)
  {
  }

  /** Rust accepts the list, and every digest in it is one its types admit. */
  predicate RustAccepts(es: seq<JournalEvent>) {
    Accepted(es) && AllDigestsWellFormed(es)
  }

  predicate Agree(es: seq<JournalEvent>) {
    && (RustAccepts(es) <==> GoReplay(es).Some? && Records(es) <= U32_MAX)
    && (RustAccepts(es) ==> SameState(GoReplay(es).value, Replay(es).value, Previous(es, |es|)))
  }

  lemma RefusedStaysRefused(es: seq<JournalEvent>)
    requires es != [] && Agree(es[..|es| - 1]) && !RustAccepts(es[..|es| - 1])
    ensures Agree(es)
  {
    var n := |es| - 1;
    ReplayNext(es, n);
    GoReplayNext(es, n);
    assert es[..n + 1] == es;
    LastDigest(es);
  }

  lemma AcceptedStep(es: seq<JournalEvent>)
    requires es != [] && Agree(es[..|es| - 1]) && RustAccepts(es[..|es| - 1])
    requires es[|es| - 1].schemaVersion == EVENT_SCHEMA && es[|es| - 1].sequence == |es| - 1
    ensures Agree(es)
  {
    var n := |es| - 1;
    var g, s, kind := GoReplay(es[..n]).value, Replay(es[..n]).value, es[n].kind;
    ReplayNext(es, n);
    GoReplayNext(es, n);
    assert es[..n + 1] == es;
    LastDigest(es);
    CounterIsRecords(es[..n]);
    assert Previous(es[..n], n) == Previous(es, n);
    if !kind.VerifierRecorded? || s.verifierRecords < U32_MAX { StepsAgree(g, s, Previous(es, n), kind); }
  }

  /**
   The two validators, exactly: on correctly numbered journals Rust accepts a list if and only if Go
   accepts it and the records do not exceed the 32-bit counter, which Rust checks and Go lets wrap.
   Where both accept they rebuild the same state.
   */
  lemma {:induction false} ValidatorsAgree(es: seq<JournalEvent>)
    requires Numbered(es)
    ensures Agree(es)
  {
    if es != [] {
      var front := es[..|es| - 1];
      ValidatorsAgree(front);
      if RustAccepts(front) { AcceptedStep(es); } else { RefusedStaysRefused(es); }
    }
  }

  /** Within the import limit, Mission accepts a journal exactly when it fits the grammar. */
  lemma ImportDecidesGrammar(es: seq<JournalEvent>)
    requires Numbered(es) && |es| <= EVENT_LIMIT && AllDigestsWellFormed(es)
    ensures GoReplay(es).Some? <==> Grammar(es)
  {
    ValidatorsAgree(es);
    RecordsAtMost(es);
    ValidatorDecidesGrammar(es);
  }

  // ----- where they part -----

  /** A journal of `n` verification attempts and nothing else. */
  function Rounds(n: nat, report: Digest): (es: seq<JournalEvent>)
    ensures |es| == 2 * n
  {
    if n == 0 then []
    else
      Rounds(n - 1, report)
      + [JournalEvent(EVENT_SCHEMA, 2 * n - 2, VerificationStarted(n - 1)),
         JournalEvent(EVENT_SCHEMA, 2 * n - 1, VerifierRecorded(report))]
  }

  lemma RoundsLast(n: nat, report: Digest)
    requires n > 0
    ensures var es, m := Rounds(n, report), 2 * n - 2;
      && es[..m + 1][..m] == es[..m] == Rounds(n - 1, report) && es[..m + 2] == es
      && es[m].kind == VerificationStarted(n - 1) && es[m + 1].kind == VerifierRecorded(report)
      && es[m].schemaVersion == es[m + 1].schemaVersion == EVENT_SCHEMA
      && es[m].sequence == m && es[m + 1].sequence == m + 1
  {
  }

  lemma {:induction false} RoundsNumbered(n: nat, report: Digest)
    ensures Numbered(Rounds(n, report)) && Records(Rounds(n, report)) == n
  {
    hide Rounds;
    if n > 0 {
      var es, m := Rounds(n, report), 2 * n - 2;
      RoundsNumbered(n - 1, report);
      RoundsLast(n, report);
      assert es[..m + 1][..|es[..m + 1]| - 1] == Rounds(n - 1, report);
      assert es[..|es| - 1] == es[..m + 1];
    }
  }

  /** Between two rounds, `n` of them done. */
  predicate Idle(g: GoState, n: nat) {
    && g.effects == map[] && g.providerStep == 0 && !g.verificationOpen && !g.published
    && g.verifierRecords == (if n == TWO_TO_THE_32 then 0 else n)
  }

  lemma RoundSteps(g: GoState, n: nat, report: Digest, before: Digest, between: Digest)
    requires Idle(g, n) && n < TWO_TO_THE_32 && ValidDigest(report)
    ensures GoStep(g, VerificationStarted(n), before).Some?
    ensures var open := GoStep(g, VerificationStarted(n), before).value;
            var closed := GoStep(open, VerifierRecorded(report), between);
            closed.Some? && Idle(closed.value, n + 1)
  {
  }

  /** Go accepts every one of them, and after the last one that fits its counter starts again at zero. */
  lemma {:induction false} GoAcceptsRounds(n: nat, report: Digest)
    requires n <= TWO_TO_THE_32 && ValidDigest(report)
    ensures GoReplay(Rounds(n, report)).Some? && Idle(GoReplay(Rounds(n, report)).value, n)
  {
    hide Rounds;
    if n > 0 {
      var es, m := Rounds(n, report), 2 * n - 2;
      GoAcceptsRounds(n - 1, report);
      RoundsLast(n, report);
      RoundSteps(GoReplay(es[..m]).value, n - 1, report, Previous(es, m), Previous(es, m + 1));
      GoReplayNext(es, m);
      GoReplayNext(es, m + 1);
    }
  }

  /** A journal that Go accepts and Rust refuses: one record more than the counter holds. */
  lemma CounterOverflowDiffers(report: Digest)
    requires ValidDigest(report)
    ensures var es := Rounds(TWO_TO_THE_32, report);
      && Numbered(es) && GoReplay(es).Some? && GoReplay(es).value.verifierRecords == 0
      && !Accepted(es) && |es| > EVENT_LIMIT
  {
    var es := Rounds(TWO_TO_THE_32, report);
    RoundsNumbered(TWO_TO_THE_32, report);
    GoAcceptsRounds(TWO_TO_THE_32, report);
    if Accepted(es) { CounterIsRecords(es); }
  }

  // ----- the Go loop -----

  /** `validateAONextJournalLifecycle`; the caller has checked the numbering. */
  method ValidateAONextJournalLifecycle(events: seq<JournalEvent>) returns (r: Option<GoState>)
    requires Numbered(events)
    ensures r == GoReplay(events)
  {
    hide Step;
    var state := GO_INITIAL;
    for i := 0 to |events|
      invariant GoReplay(events[..i]) == Some(state)
      invariant state.providerStep <= i
    {
      var event := events[i];
      GoReplayNext(events, i);
      if state.published { return None; }
      var next;
      if IsProviderKind(event.kind) {
        next := ApplyProvider(state, event, events);
      } else if IsEffectKind(event.kind) {
        next := ApplyEffect(state, event.kind);
      } else {
        next := ApplyVerification(state, event.kind);
      }
      if next.None? { return None; }
      state := next.value;
    }
    assert events[..|events|] == events;
    return Some(state);
  }

  /** The provider cases of the switch; a verified index is compared with the event before it. */
  method ApplyProvider(s: GoState, event: JournalEvent, events: seq<JournalEvent>) returns (r: Option<GoState>)
    requires IsProviderKind(event.kind) && s.providerStep <= event.sequence < |events|
    ensures r == GoProvider(s, event.kind, Previous(events, event.sequence))
    ensures r.Some? ==> r.value.providerStep <= event.sequence + 1
  {
    var state := s;
    match event.kind
    case ProviderRequestIntent(prepared, authority) =>
      if state.providerStep != 0 || |state.effects| != 0 || state.verificationSeen
         || !ValidDigest(prepared) || !ValidDigest(authority) { return None; }
      state := state.(providerStep := 1);
      return Some(state);
    case ProviderProcessStarted(d) =>
      if state.providerStep != 1 || state.verificationSeen || !ValidDigest(d) { return None; }
      state := state.(providerStep := 2);
      return Some(state);
    case ProviderOutputRetained(d) =>
      if state.providerStep != 2 || state.verificationSeen || !ValidDigest(d) { return None; }
      state := state.(providerStep := 3);
      return Some(state);
    case ProviderCaptureIndexPublished(d) =>
      if state.providerStep != 3 || !ValidDigest(d) { return None; }
      state := state.(providerStep := 4);
      return Some(state);
    case ProviderCaptureVerified(d) =>
      if state.providerStep != 4 || !ValidDigest(d) || d != IndexDigest(events[event.sequence - 1].kind) {
        return None;
      }
      state := state.(providerStep := 5);
      return Some(state);
    case AdapterTurnNormalized(d) =>
      if state.providerStep != 5 || !ValidDigest(d) { return None; }
      state := state.(providerStep := 6);
      return Some(state);
  }

  method ApplyEffect(s: GoState, kind: EventKind) returns (r: Option<GoState>)
    requires IsEffectKind(kind)
    ensures r == GoEffect(s, kind) && (r.Some? ==> r.value.providerStep == s.providerStep)
  {
    var state := s;
    match kind
    case EffectIntent(id, digest) =>
      if state.verificationSeen || (state.providerStep != 0 && state.providerStep != 6) || Blank(id)
         || !ValidDigest(digest) { return None; }
      if id in state.effects { return None; }
      if id in state.legacyEffects { return None; }
      state := state.(effects := state.effects[id := false]);
      return Some(state);
    case EffectCommitted(id) =>
      if state.verificationSeen || (state.providerStep != 0 && state.providerStep != 6) || Blank(id) { return None; }
      if id in state.effects { return None; }
      if id in state.legacyEffects { return None; }
      state := state.(legacyEffects := state.legacyEffects + {id});
      state := state.(effects := state.effects[id := true]);
      return Some(state);
    case EffectCompleted(o) =>
      if o.effectId !in state.effects || state.effects[o.effectId] || state.verificationSeen
         || o.effectId == "" || !ValidDigest(o.outputDigest) { return None; }
      state := state.(effects := state.effects[o.effectId := true]);
      return Some(state);
  }

  method ApplyVerification(s: GoState, kind: EventKind) returns (r: Option<GoState>)
    requires !IsProviderKind(kind) && !IsEffectKind(kind)
    ensures r == GoVerification(s, kind) && (r.Some? ==> r.value.providerStep == s.providerStep)
  {
    var state := s;
    match kind
    case VerificationStarted(attempt) =>
      if (state.providerStep != 0 && state.providerStep != 6) || state.verificationOpen
         || attempt != state.verifierRecords { return None; }
      if exists id | id in state.effects :: !state.effects[id] { return None; }
      state := state.(verificationSeen := true);
      state := state.(verificationOpen := true);
      return Some(state);
    case VerifierRecorded(d) =>
      if !state.verificationOpen || !ValidDigest(d) { return None; }
      state := state.(verificationOpen := false);
      state := state.(verifierRecords := (state.verifierRecords + 1) % TWO_TO_THE_32);
      state := state.(verifierDigest := d);
      return Some(state);
    case TerminalPublished(d) =>
      if state.verificationOpen || state.verifierRecords == 0 || !ValidDigest(d) { return None; }
      state := state.(published := true);
      return Some(state);
  }

  // ----- the projected status -----

  datatype RecordState = RecordPassed | RecordFailed | RecordDenied | RecordInterrupted

  datatype Status =
    | Prepared | IntentRecorded | ProviderOutcomeUnknown | ProviderCaptured
    | EffectsPending | EffectOutcomeUnknown | Verifying
    | StatusPassed | StatusFailed | StatusStopped

  /** `projectAONextJournalPrefix`: the status of an imported prefix and its terminal record. */
  function Project(events: seq<JournalEvent>, terminal: Option<RecordState>): Option<Status> {
    match GoReplay(events)
    case None => None
    case Some(s) => Some(StatusOf(s, terminal))
  }

  function StatusOf(s: GoState, terminal: Option<RecordState>): Status {
    if terminal.Some? then
      match terminal.value
      case RecordPassed => StatusPassed
      case RecordFailed => StatusFailed
      case _ => StatusStopped
    else if s.verificationSeen then Verifying
    else if |s.effects| > 0 then
      if AllTrue(s.effects) then EffectsPending else EffectOutcomeUnknown
    else if s.providerStep == 6 then ProviderCaptured
    else if s.providerStep >= 2 then ProviderOutcomeUnknown
    else if s.providerStep == 1 then IntentRecorded
    else Prepared
  }

  /** The import has checked that a terminal record comes exactly with a terminal event. */
  predicate TerminalConsistent(events: seq<JournalEvent>, terminal: Option<RecordState>) {
    GoReplay(events).Some? ==> (GoReplay(events).value.published <==> terminal.Some?)
  }

  function Rank(status: Status): nat {
    match status
    case Prepared => 0
    case IntentRecorded => 1
    case ProviderOutcomeUnknown => 2
    case ProviderCaptured => 3
    case EffectsPending => 4
    case EffectOutcomeUnknown => 4
    case Verifying => 5
    case _ => 6
  }

  /** How far a state has come, without the terminal record. */
  function Progress(s: GoState): nat {
    if s.published then 6
    else if s.verificationSeen then 5
    else if s.effects != map[] then 4
    else if s.providerStep == 6 then 3
    else if s.providerStep >= 2 then 2
    else s.providerStep
  }

  lemma ProjectRank(events: seq<JournalEvent>, terminal: Option<RecordState>)
    requires GoReplay(events).Some? && TerminalConsistent(events, terminal)
    ensures Rank(Project(events, terminal).value) == Progress(GoReplay(events).value)
  {
    var effects := GoReplay(events).value.effects;
    assert |effects| > 0 <==> effects != map[];
  }

  lemma StepProgresses(s: GoState, kind: EventKind, previous: Digest)
    requires GoStep(s, kind, previous).Some?
    ensures Progress(s) <= Progress(GoStep(s, kind, previous).value)
  {
  }

  lemma {:induction false} ProgressGrows(es: seq<JournalEvent>, n: nat)
    requires n <= |es| && GoReplay(es).Some?
    ensures GoReplay(es[..n]).Some? && Progress(GoReplay(es[..n]).value) <= Progress(GoReplay(es).value)
    decreases |es| - n
  {
    if n < |es| {
      ProgressGrows(es, n + 1);
      GoReplayNext(es, n);
      StepProgresses(GoReplay(es[..n]).value, es[n].kind, Previous(es, n));
    } else {
      assert es[..n] == es;
    }
  }

  /** As a journal grows its projected status never moves backwards. */
  lemma StatusNeverRegresses(
    es: seq<JournalEvent>, terminal: Option<RecordState>, es': seq<JournalEvent>, terminal': Option<RecordState>)
    requires es <= es' && GoReplay(es').Some?
    requires TerminalConsistent(es, terminal) && TerminalConsistent(es', terminal')
    ensures Project(es, terminal).Some? && Rank(Project(es, terminal).value) <= Rank(Project(es', terminal').value)
  {
    ProgressGrows(es', |es|);
    assert es'[..|es|] == es;
    ProjectRank(es, terminal);
    ProjectRank(es', terminal');
  }

  lemma KindsByPosition(es: seq<JournalEvent>, sh: Shape, i: nat)
    requires Fits(es, sh) && i < |es|
    ensures IsEffectKind(es[i].kind) <==> sh.provider <= i < sh.verify
    ensures es[i].kind.VerificationStarted? ==> sh.verify < sh.End()
  {
    if sh.verify <= i < sh.verify + 2 * sh.rounds {
      assert Round(es, sh.verify, (i - sh.verify) / 2);
    }
  }

  /** The journal holds an intent that no completion answers. */
  ghost predicate Unanswered(es: seq<JournalEvent>) {
    exists i :: 0 <= i < |es| && es[i].kind.EffectIntent? && !HasCompletion(es, 0, |es|, es[i].kind.effectId)
  }

  ghost predicate Verified(es: seq<JournalEvent>) {
    exists i :: 0 <= i < |es| && es[i].kind.VerificationStarted?
  }

  lemma CompletionAnywhere(es: seq<JournalEvent>, sh: Shape, id: string)
    requires Fits(es, sh)
    ensures HasCompletion(es, 0, |es|, id) <==> HasCompletion(es, sh.provider, sh.verify, id)
  {
    if HasCompletion(es, 0, |es|, id) {
      var c :| 0 <= c < |es| && Completes(es[c], id);
      KindsByPosition(es, sh, c);
    }
  }

  lemma UnansweredIsUnsettled(es: seq<JournalEvent>, sh: Shape)
    requires Fits(es, sh)
    ensures Unanswered(es) <==> !Settled(es, sh.provider, sh.verify)
  {
    forall i | 0 <= i < |es| && es[i].kind.EffectIntent?
      ensures sh.provider <= i < sh.verify
      ensures HasCompletion(es, 0, |es|, es[i].kind.effectId)
              <==> HasCompletion(es, sh.provider, sh.verify, es[i].kind.effectId)
    {
      KindsByPosition(es, sh, i);
      CompletionAnywhere(es, sh, es[i].kind.effectId);
    }
  }

  lemma UnansweredIsIncomplete(es: seq<JournalEvent>)
    requires Accepted(es)
    ensures Unanswered(es) <==> !AllCompleted(Replay(es).value.effects)
    ensures Verified(es) <==> Replay(es).value.verificationSeen
  {
    var sh := AcceptedFits(es);
    UnansweredIsUnsettled(es, sh);
    CompletedIsSettled(es, sh.provider, sh.verify, Replay(es).value);
    if Verified(es) {
      var i :| 0 <= i < |es| && es[i].kind.VerificationStarted?;
      KindsByPosition(es, sh, i);
    }
    if sh.verify < sh.End() { FirstStart(es, sh); }
  }

  lemma FirstStart(es: seq<JournalEvent>, sh: Shape)
    requires Fits(es, sh) && sh.verify < sh.End()
    ensures Verified(es)
  {
    if sh.rounds > 0 { assert Round(es, sh.verify, 0); }
    assert es[sh.verify].kind.VerificationStarted?;
  }

  /** The statuses, read off the state that the journal rebuilds. */
  lemma UnknownOf(g: GoState, s: Lifecycle, previous: Digest, terminal: Option<RecordState>)
    requires SameState(g, s, previous) && (g.published <==> terminal.Some?)
    ensures StatusOf(g, terminal) == EffectOutcomeUnknown <==> !s.verificationSeen && !AllCompleted(s.effects)
  {
    assert AllTrue(g.effects) <==> AllCompleted(s.effects);
    assert |g.effects| > 0 <==> g.effects != map[];
  }

  lemma PreparedOf(g: GoState, s: Lifecycle, previous: Digest, terminal: Option<RecordState>)
    requires SameState(g, s, previous) && (g.published <==> terminal.Some?)
    ensures StatusOf(g, terminal) == Prepared <==>
      s.providerStep == 0 && s.effects.Keys + s.legacyCommitted == {} && !s.verificationSeen
  {
    assert |g.effects| > 0 <==> g.effects != map[];
    assert g.effects != map[] <==> g.effects.Keys != {};
  }

  lemma UnknownMeaning(es: seq<JournalEvent>, terminal: Option<RecordState>)
    requires Numbered(es) && Records(es) <= U32_MAX && GoReplay(es).Some? && TerminalConsistent(es, terminal)
    ensures Project(es, terminal) == Some(EffectOutcomeUnknown) <==> !Verified(es) && Unanswered(es)
  {
    ValidatorsAgree(es);
    UnansweredIsIncomplete(es);
    UnknownOf(GoReplay(es).value, Replay(es).value, Previous(es, |es|), terminal);
  }

  lemma PreparedMeaning(es: seq<JournalEvent>, terminal: Option<RecordState>)
    requires Numbered(es) && Records(es) <= U32_MAX && GoReplay(es).Some? && TerminalConsistent(es, terminal)
    ensures Project(es, terminal) == Some(Prepared) <==> es == []
  {
    ValidatorsAgree(es);
    PreparedOf(GoReplay(es).value, Replay(es).value, Previous(es, |es|), terminal);
    if es != [] { StartedIsVisible(es); }
  }

  /**
   What the status says about the journal itself: an outcome is unknown exactly when some intent
   is unanswered and nothing was verified, and only the empty journal is merely prepared.
   */
  lemma StatusMeaning(es: seq<JournalEvent>, terminal: Option<RecordState>)
    requires Numbered(es) && Records(es) <= U32_MAX && GoReplay(es).Some? && TerminalConsistent(es, terminal)
    ensures Project(es, terminal) == Some(EffectOutcomeUnknown) <==> !Verified(es) && Unanswered(es)
    ensures Project(es, terminal) == Some(Prepared) <==> es == []
  {
    UnknownMeaning(es, terminal);
    PreparedMeaning(es, terminal);
  }

  lemma StartedIsVisible(es: seq<JournalEvent>)
    requires Accepted(es) && es != []
    ensures var s := Replay(es).value;
            s.providerStep > 0 || s.effects.Keys + s.legacyCommitted != {} || s.verificationSeen
  {
    var sh := AcceptedFits(es);
    AcceptedCoherent(es);
    var s := Replay(es).value;
    if s.effectSeen { SomethingRecorded(s); }
  }

  lemma SomethingRecorded(s: Lifecycle)
    requires s.effects != map[] || s.legacyCommitted != {}
    ensures s.effects.Keys + s.legacyCommitted != {}
  {
    if s.effects != map[] {
      var id :| id in s.effects;
    } else {
      var id :| id in s.legacyCommitted;
    }
  }

  /**
   Mission's unknown provider outcome and the engine's are different notions: one covers capture
   steps 2 to 5, the other steps 1 and 2. They agree exactly outside steps 1, 3, 4 and 5.
   */
  lemma UnknownOutcomesDiffer(es: seq<JournalEvent>)
    requires Numbered(es) && Records(es) <= U32_MAX && GoReplay(es).Some? && Accepted(es)
    ensures var s := Replay(es).value;
            var engineUnknown := s.provider.preparedRunDigest.Some? && s.provider.rawCaptureDigest.None?;
            (Project(es, None) == Some(ProviderOutcomeUnknown) <==> engineUnknown)
            <==> s.providerStep !in {1, 3, 4, 5}
  {
    ValidatorsAgree(es);
    AcceptedCoherent(es);
    var g, s := GoReplay(es).value, Replay(es).value;
    assert |g.effects| > 0 <==> g.effects != map[];
    if 0 < s.providerStep < 6 { assert g.effects.Keys == {}; }
  }
}
