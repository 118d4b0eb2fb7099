/**
 A grammar for journals that mentions no running state: where each kind of event may
 stand, stated by positions. The validator's fold accepts exactly this language, and the
 state it rebuilds is the one the positions describe.
 */
module JournalGrammar {
  import opened Words
  import opened Wrappers
  import opened Journal

  /**
   The layout of a journal: provider events fill `[0, provider)`, effect events
   `[provider, verify)`; then `rounds` finished verification attempts of two events each and
   possibly one open attempt, up to `End()`, where a terminal event may stand.
   */
  datatype Shape = Shape(provider: nat, verify: nat, rounds: nat, open: bool) {
    function End(): nat {
      verify + 2 * rounds + if open then 1 else 0
    }
  }

  /** The place of a provider kind in the fixed capture chain. */
  function Link(kind: EventKind): nat
    requires IsProviderKind(kind)
  {
    match kind
    case ProviderRequestIntent(_, _) => 0
    case ProviderProcessStarted(_) => 1
    case ProviderOutputRetained(_) => 2
    case ProviderCaptureIndexPublished(_) => 3
    case ProviderCaptureVerified(_) => 4
    case AdapterTurnNormalized(_) => 5
  }

  function EffectId(kind: EventKind): string
    requires IsEffectKind(kind)
  {
    match kind
    case EffectIntent(id, _) => id
    case EffectCommitted(id) => id
    case EffectCompleted(observation) => observation.effectId
  }

  predicate Intends(e: JournalEvent, id: string) { e.kind.EffectIntent? && e.kind.effectId == id }
  predicate Commits(e: JournalEvent, id: string) { e.kind.EffectCommitted? && e.kind.committedId == id }
  predicate Completes(e: JournalEvent, id: string) {
    e.kind.EffectCompleted? && e.kind.observation.effectId == id
  }

  ghost predicate HasIntent(es: seq<JournalEvent>, lo: nat, hi: nat, id: string)
    requires hi <= |es|
  {
    exists i :: lo <= i < hi && Intends(es[i], id)
  }

  ghost predicate HasCommit(es: seq<JournalEvent>, lo: nat, hi: nat, id: string)
    requires hi <= |es|
  {
    exists i :: lo <= i < hi && Commits(es[i], id)
  }

  ghost predicate HasCompletion(es: seq<JournalEvent>, lo: nat, hi: nat, id: string)
    requires hi <= |es|
  {
    exists i :: lo <= i < hi && Completes(es[i], id)
  }

  ghost predicate Numbered(es: seq<JournalEvent>) {
    forall i | 0 <= i < |es| :: es[i].schemaVersion == EVENT_SCHEMA && es[i].sequence == i
  }

  /** Exactly the first links of the chain, the verified index being the published one. */
  ghost predicate ProviderSegment(es: seq<JournalEvent>, hi: nat)
    requires hi <= |es|
  {
    && hi <= 6
    && (forall i | 0 <= i < hi :: IsProviderKind(es[i].kind) && Link(es[i].kind) == i)
    && (hi > 4 ==> es[4].kind.verifiedIndexDigest == es[3].kind.indexDigest)
  }

  /** No id is declared twice or completed twice, and a legacy commit is never mixed with an intent. */
  ghost predicate UniqueIds(es: seq<JournalEvent>, lo: nat, hi: nat)
    requires lo <= hi <= |es|
    requires forall i | lo <= i < hi :: IsEffectKind(es[i].kind)
  {
    forall i, j | lo <= i < j < hi && EffectId(es[i].kind) == EffectId(es[j].kind) ::
      es[j].kind.EffectCompleted? && es[i].kind.EffectIntent?
  }

  /** Every completion answers an earlier intent. */
  ghost predicate CompletionsAnswer(es: seq<JournalEvent>, lo: nat, hi: nat)
    requires lo <= hi <= |es|
  {
    forall j | lo <= j < hi && es[j].kind.EffectCompleted? ::
      HasIntent(es, lo, j, es[j].kind.observation.effectId)
  }

  ghost predicate EffectSegment(es: seq<JournalEvent>, lo: nat, hi: nat)
    requires lo <= hi <= |es|
  {
    && (forall i | lo <= i < hi :: IsEffectKind(es[i].kind) && !Blank(EffectId(es[i].kind)))
    && UniqueIds(es, lo, hi)
    && CompletionsAnswer(es, lo, hi)
  }

  /** Every intent has its completion. */
  ghost predicate Settled(es: seq<JournalEvent>, lo: nat, hi: nat)
    requires lo <= hi <= |es|
  {
    forall i | lo <= i < hi && es[i].kind.EffectIntent? :: HasCompletion(es, lo, hi, es[i].kind.effectId)
  }

  /** Attempt `k`: its start, numbered `k`, and directly after it its record. */
  ghost predicate Round(es: seq<JournalEvent>, lo: nat, k: nat) {
    && lo + 2 * k + 1 < |es|
    && es[lo + 2 * k].kind == VerificationStarted(k)
    && es[lo + 2 * k + 1].kind.VerifierRecorded?
  }

  ghost predicate VerificationSegment(es: seq<JournalEvent>, sh: Shape)
    requires sh.End() <= |es|
  {
    && (forall k | 0 <= k < sh.rounds :: Round(es, sh.verify, k))
    && (sh.open ==> es[sh.verify + 2 * sh.rounds].kind == VerificationStarted(sh.rounds))
    && sh.rounds <= U32_MAX
  }

  ghost predicate Fits(es: seq<JournalEvent>, sh: Shape) {
    && sh.provider <= sh.verify <= sh.End() <= |es| <= sh.End() + 1
    && Numbered(es)
    && ProviderSegment(es, sh.provider)
    && (0 < sh.provider < 6 ==> |es| == sh.provider)
    && EffectSegment(es, sh.provider, sh.verify)
    && VerificationSegment(es, sh)
    && (sh.verify < sh.End() ==> Settled(es, sh.provider, sh.verify))
    && (sh.End() < |es| ==> es[sh.End()].kind.TerminalPublished? && sh.rounds > 0 && !sh.open)
  }

  ghost predicate Grammar(es: seq<JournalEvent>) {
    exists sh :: Fits(es, sh)
  }

  // ----- the state that the positions describe -----

  /** The provider fields after the first `k` links. */
  ghost function ProviderAfter(es: seq<JournalEvent>, k: nat): ProviderState
    requires k <= |es| && ProviderSegment(es, k)
  {
    ProviderState(
      if k > 0 then Some(es[0].kind.preparedRunDigest) else None,
      if k > 0 then Some(es[0].kind.executionAuthorityDigest) else None,
      k > 1,
      if k > 1 then Some(es[1].kind.invocationDigest) else None,
      if k > 2 then Some(es[2].kind.rawCaptureDigest) else None,
      if k > 3 then Some(es[3].kind.indexDigest) else None,
      k > 4,
      if k > 5 then Some(es[5].kind.turnDigest) else None)
  }

  /** Every effect event is accounted for in the state. */
  ghost predicate Accounted(es: seq<JournalEvent>, lo: nat, hi: nat, s: Lifecycle)
    requires lo <= hi <= |es|
  {
    forall i | lo <= i < hi ::
      match es[i].kind
      case EffectIntent(id, digest) => id in s.effects && s.effects[id].digest == digest
      case EffectCommitted(id) => id in s.legacyCommitted
      case EffectCompleted(o) => o.effectId in s.effects && s.effects[o.effectId].completion == Some(o)
      case _ => true
  }

  /** Nothing in the state lacks its event. */
  ghost predicate Justified(es: seq<JournalEvent>, lo: nat, hi: nat, s: Lifecycle)
    requires lo <= hi <= |es|
  {
    && (forall id | id in s.effects :: HasIntent(es, lo, hi, id))
    && (forall id | id in s.legacyCommitted :: HasCommit(es, lo, hi, id))
    && (forall id | id in s.effects && s.effects[id].completion.Some? :: HasCompletion(es, lo, hi, id))
  }

  ghost predicate Describes(es: seq<JournalEvent>, sh: Shape, s: Lifecycle)
    requires Fits(es, sh)
  {
    && s.providerStep == sh.provider
    && s.provider == ProviderAfter(es, sh.provider)
    && (s.effectSeen <==> sh.provider < sh.verify)
    && (s.verificationSeen <==> sh.verify < sh.End())
    && Accounted(es, sh.provider, sh.verify, s) && Justified(es, sh.provider, sh.verify, s)
    && s.verifierRecords == sh.rounds
    && s.verificationOpen == sh.open
    && s.terminalDigest == (if sh.End() < |es| then Some(es[sh.End()].kind.recordDigest) else None)
  }

  /** The layout after one more event of the given kind. */
  function Grow(sh: Shape, kind: EventKind): Shape {
    if IsProviderKind(kind) then sh.(provider := sh.provider + 1, verify := sh.verify + 1)
    else if IsEffectKind(kind) then sh.(verify := sh.verify + 1)
    else match kind
      case VerificationStarted(_) => sh.(open := true)
      case VerifierRecorded(_) => sh.(open := false, rounds := sh.rounds + 1)
      case _ => sh
  }

  // ----- an accepted step keeps the grammar -----

  lemma ProviderStepKeeps(es: seq<JournalEvent>, sh: Shape, s: Lifecycle, e: JournalEvent, s': Lifecycle)
    requires Fits(es, sh) && Describes(es, sh, s) && Step(s, e, |es|) == Some(s') && IsProviderKind(e.kind)
    ensures Fits(es + [e], Grow(sh, e.kind)) && Describes(es + [e], Grow(sh, e.kind), s')
  {
    var es' := es + [e];
    assert forall i | 0 <= i < |es| :: es'[i] == es[i];
    assert sh.provider == |es| == sh.verify == sh.End();
    assert Link(e.kind) == |es|;
    assert Fits(es', Grow(sh, e.kind));
  }

  lemma HasExtend(es: seq<JournalEvent>, e: JournalEvent, lo: nat, hi: nat, id: string)
    requires hi <= |es|
    ensures HasIntent(es + [e], lo, hi, id) == HasIntent(es, lo, hi, id)
    ensures HasCommit(es + [e], lo, hi, id) == HasCommit(es, lo, hi, id)
    ensures HasCompletion(es + [e], lo, hi, id) == HasCompletion(es, lo, hi, id)
  {
    assert forall i | 0 <= i < |es| :: (es + [e])[i] == es[i];
  }

  lemma EffectsUnchanged(es: seq<JournalEvent>, e: JournalEvent, lo: nat, hi: nat, s: Lifecycle, s': Lifecycle)
    requires lo <= hi <= |es| && s'.effects == s.effects && s'.legacyCommitted == s.legacyCommitted
    ensures EffectSegment(es, lo, hi) <==> EffectSegment(es + [e], lo, hi)
    ensures Settled(es, lo, hi) <==> Settled(es + [e], lo, hi)
    ensures Accounted(es, lo, hi, s) ==> Accounted(es + [e], lo, hi, s')
    ensures Justified(es, lo, hi, s) ==> Justified(es + [e], lo, hi, s')
  {
    var es' := es + [e];
    assert forall i | 0 <= i < |es| :: es'[i] == es[i];
    forall j, id | lo <= j <= hi
      ensures HasIntent(es', lo, j, id) == HasIntent(es, lo, j, id)
      ensures HasCommit(es', lo, j, id) == HasCommit(es, lo, j, id)
      ensures HasCompletion(es', lo, j, id) == HasCompletion(es, lo, j, id)
    {
      HasExtend(es, e, lo, j, id);
    }
  }

  lemma EffectStepAccounted(es: seq<JournalEvent>, lo: nat, s: Lifecycle, e: JournalEvent, s': Lifecycle)
    requires lo <= |es| && EffectSegment(es, lo, |es|) && Accounted(es, lo, |es|, s)
    requires IsEffectKind(e.kind) && StepEffect(s, e.kind) == Some(s')
    ensures Accounted(es + [e], lo, |es| + 1, s')
  {
    var es' := es + [e];
    assert forall i | 0 <= i < |es| :: es'[i] == es[i];
    assert es'[|es|] == e;
  }

  lemma HasGrow(es: seq<JournalEvent>, e: JournalEvent, lo: nat, id: string)
    requires lo <= |es|
    ensures HasIntent(es, lo, |es|, id) || Intends(e, id) ==> HasIntent(es + [e], lo, |es| + 1, id)
    ensures HasCommit(es, lo, |es|, id) || Commits(e, id) ==> HasCommit(es + [e], lo, |es| + 1, id)
    ensures HasCompletion(es, lo, |es|, id) || Completes(e, id) ==> HasCompletion(es + [e], lo, |es| + 1, id)
  {
    assert (es + [e])[|es|] == e;
    HasExtend(es, e, lo, |es|, id);
  }

  lemma EffectStepJustified(es: seq<JournalEvent>, lo: nat, s: Lifecycle, e: JournalEvent, s': Lifecycle)
    requires lo <= |es| && Justified(es, lo, |es|, s)
    requires IsEffectKind(e.kind) && StepEffect(s, e.kind) == Some(s')
    ensures Justified(es + [e], lo, |es| + 1, s')
  {
    hide HasIntent, HasCommit, HasCompletion;
    var es', n := es + [e], |es|;
    forall id | id in s'.effects
      ensures HasIntent(es', lo, n + 1, id)
      ensures s'.effects[id].completion.Some? ==> HasCompletion(es', lo, n + 1, id)
    {
      HasGrow(es, e, lo, id);
    }
    forall id | id in s'.legacyCommitted
      ensures HasCommit(es', lo, n + 1, id)
    {
      HasGrow(es, e, lo, id);
    }
  }

  /** An id with an intent has no legacy commit. */
  lemma IntentExcludesCommit(es: seq<JournalEvent>, lo: nat, i: nat, j: nat)
    requires lo <= i < |es| && lo <= j < |es| && (forall k | lo <= k < |es| :: IsEffectKind(es[k].kind))
    requires UniqueIds(es, lo, |es|) && Intends(es[j], EffectId(es[i].kind))
    ensures !es[i].kind.EffectCommitted?
  {
    assert EffectId(es[j].kind) == EffectId(es[i].kind);
  }

  /** An id that an accepted effect event repeats was an intent, and the event completes it. */
  lemma EffectStepUnique(es: seq<JournalEvent>, lo: nat, s: Lifecycle, e: JournalEvent, s': Lifecycle, i: nat)
    requires lo <= i < |es| && (forall k | lo <= k < |es| :: IsEffectKind(es[k].kind))
    requires UniqueIds(es, lo, |es|) && Accounted(es, lo, |es|, s)
    requires forall id | id in s.effects :: HasIntent(es, lo, |es|, id)
    requires IsEffectKind(e.kind) && StepEffect(s, e.kind) == Some(s')
    requires EffectId(es[i].kind) == EffectId(e.kind)
    ensures e.kind.EffectCompleted? && es[i].kind.EffectIntent?
  {
    var id := EffectId(e.kind);
    match es[i].kind
    case EffectIntent(_, _) => assert id in s.effects;
    case EffectCompleted(_) =>
    case EffectCommitted(_) =>
      assert id in s.legacyCommitted && e.kind.EffectCompleted?;
      var j :| lo <= j < |es| && Intends(es[j], id);
      IntentExcludesCommit(es, lo, i, j);
  }

  lemma CompletionsGrow(es: seq<JournalEvent>, lo: nat, e: JournalEvent)
    requires lo <= |es| && CompletionsAnswer(es, lo, |es|)
    requires e.kind.EffectCompleted? ==> HasIntent(es, lo, |es|, e.kind.observation.effectId)
    ensures CompletionsAnswer(es + [e], lo, |es| + 1)
  {
    hide HasIntent, HasCompletion, HasCommit;
    var es', n := es + [e], |es|;
    forall j | lo <= j <= n && es'[j].kind.EffectCompleted?
      ensures HasIntent(es', lo, j, es'[j].kind.observation.effectId)
    {
      HasExtend(es, e, lo, j, es'[j].kind.observation.effectId);
      if j < n { assert es'[j] == es[j]; }
    }
  }

  lemma UniqueIdsGrow(es: seq<JournalEvent>, lo: nat, e: JournalEvent)
    requires lo <= |es| && IsEffectKind(e.kind) && (forall k | lo <= k < |es| :: IsEffectKind(es[k].kind))
    requires UniqueIds(es, lo, |es|)
    requires forall i | lo <= i < |es| && EffectId(es[i].kind) == EffectId(e.kind) ::
               e.kind.EffectCompleted? && es[i].kind.EffectIntent?
    ensures (forall k | lo <= k <= |es| :: IsEffectKind((es + [e])[k].kind)) && UniqueIds(es + [e], lo, |es| + 1)
  {
    assert forall i | 0 <= i < |es| :: (es + [e])[i] == es[i];
  }

  lemma EffectStepSegment(es: seq<JournalEvent>, lo: nat, s: Lifecycle, e: JournalEvent, s': Lifecycle)
    requires lo <= |es| && EffectSegment(es, lo, |es|)
    requires Accounted(es, lo, |es|, s) && Justified(es, lo, |es|, s)
    requires IsEffectKind(e.kind) && StepEffect(s, e.kind) == Some(s')
    ensures EffectSegment(es + [e], lo, |es| + 1)
  {
    hide Accounted, UniqueIds, CompletionsAnswer, HasIntent, HasCompletion, HasCommit;
    forall i | lo <= i < |es| && EffectId(es[i].kind) == EffectId(e.kind)
      ensures e.kind.EffectCompleted? && es[i].kind.EffectIntent?
    {
      EffectStepUnique(es, lo, s, e, s', i);
    }
    UniqueIdsGrow(es, lo, e);
    CompletionsGrow(es, lo, e);
    assert forall i | 0 <= i < |es| :: (es + [e])[i] == es[i];
  }

  lemma EffectGrowFits(es: seq<JournalEvent>, sh: Shape, e: JournalEvent)
    requires Fits(es, sh) && sh.verify == sh.End() == |es| && (sh.provider == 0 || sh.provider == 6)
    requires e.schemaVersion == EVENT_SCHEMA && e.sequence == |es| && IsEffectKind(e.kind)
    requires EffectSegment(es + [e], sh.provider, |es| + 1)
    ensures Fits(es + [e], Grow(sh, e.kind)) && Grow(sh, e.kind).verify == |es| + 1
  {
    var es' := es + [e];
    assert forall i | 0 <= i < |es| :: es'[i] == es[i];
  }

  /** An effect event is accepted only directly after the provider or effect segment. */
  lemma EffectStepFacts(es: seq<JournalEvent>, sh: Shape, s: Lifecycle, e: JournalEvent, s': Lifecycle)
    requires Fits(es, sh) && Describes(es, sh, s) && Step(s, e, |es|) == Some(s') && IsEffectKind(e.kind)
    ensures sh.verify == sh.End() == |es| && (sh.provider == 0 || sh.provider == 6)
    ensures e.schemaVersion == EVENT_SCHEMA && e.sequence == |es| && StepEffect(s, e.kind) == Some(s')
    ensures s' == s.(effectSeen := true, effects := s'.effects, legacyCommitted := s'.legacyCommitted)
  {
  }

  lemma EffectGrowDescribes(es: seq<JournalEvent>, sh: Shape, s: Lifecycle, e: JournalEvent, s': Lifecycle)
    requires Fits(es, sh) && Describes(es, sh, s) && sh.verify == sh.End() == |es| && IsEffectKind(e.kind)
    requires s' == s.(effectSeen := true, effects := s'.effects, legacyCommitted := s'.legacyCommitted)
    requires Fits(es + [e], Grow(sh, e.kind))
    requires Accounted(es + [e], sh.provider, |es| + 1, s') && Justified(es + [e], sh.provider, |es| + 1, s')
    ensures Describes(es + [e], Grow(sh, e.kind), s')
  {
    hide UniqueIds, ProviderSegment, Settled;
    assert forall i | 0 <= i < |es| :: (es + [e])[i] == es[i];
    assert ProviderAfter(es + [e], sh.provider) == ProviderAfter(es, sh.provider);
  }

  lemma EffectStepKeeps(es: seq<JournalEvent>, sh: Shape, s: Lifecycle, e: JournalEvent, s': Lifecycle)
    requires Fits(es, sh) && Describes(es, sh, s) && Step(s, e, |es|) == Some(s') && IsEffectKind(e.kind)
    ensures Fits(es + [e], Grow(sh, e.kind)) && Describes(es + [e], Grow(sh, e.kind), s')
  {
    EffectStepFacts(es, sh, s, e, s');
    EffectStepSegment(es, sh.provider, s, e, s');
    EffectGrowFits(es, sh, e);
    EffectStepAccounted(es, sh.provider, s, e, s');
    EffectStepJustified(es, sh.provider, s, e, s');
    EffectGrowDescribes(es, sh, s, e, s');
  }

  lemma RoundsGrow(es: seq<JournalEvent>, sh: Shape, e: JournalEvent)
    requires sh.End() == |es| && VerificationSegment(es, sh)
    requires if sh.open then e.kind.VerifierRecorded? && sh.rounds < U32_MAX
             else e.kind == VerificationStarted(sh.rounds)
    ensures VerificationSegment(es + [e], Grow(sh, e.kind))
  {
    var es', sh' := es + [e], Grow(sh, e.kind);
    assert forall i | 0 <= i < |es| :: es'[i] == es[i];
    forall k | 0 <= k < sh'.rounds
      ensures Round(es', sh.verify, k)
    {
      if k < sh.rounds { assert Round(es, sh.verify, k); }
    }
  }

  lemma CompletedMeansSettled(es: seq<JournalEvent>, lo: nat, hi: nat, s: Lifecycle)
    requires lo <= hi <= |es| && Accounted(es, lo, hi, s)
    requires forall id | id in s.effects && s.effects[id].completion.Some? :: HasCompletion(es, lo, hi, id)
    requires AllCompleted(s.effects)
    ensures Settled(es, lo, hi)
  {
    hide HasCompletion;
    forall i | lo <= i < hi && es[i].kind.EffectIntent?
      ensures HasCompletion(es, lo, hi, es[i].kind.effectId)
    {
      assert es[i].kind.effectId in s.effects;
    }
  }

  lemma SettledMeansCompleted(es: seq<JournalEvent>, lo: nat, hi: nat, s: Lifecycle, id: string)
    requires lo <= hi <= |es| && Accounted(es, lo, hi, s) && Settled(es, lo, hi)
    requires id in s.effects && HasIntent(es, lo, hi, id)
    ensures s.effects[id].completion.Some?
  {
    var i :| lo <= i < hi && Intends(es[i], id);
    assert HasCompletion(es, lo, hi, es[i].kind.effectId);
    var c :| lo <= c < hi && Completes(es[c], id);
  }

  /** The completeness of the rebuilt map is the completeness of the list. */
  lemma CompletedIsSettled(es: seq<JournalEvent>, lo: nat, hi: nat, s: Lifecycle)
    requires lo <= hi <= |es| && Accounted(es, lo, hi, s) && Justified(es, lo, hi, s)
    ensures AllCompleted(s.effects) <==> Settled(es, lo, hi)
  {
    hide Accounted, HasIntent, HasCompletion, HasCommit;
    if AllCompleted(s.effects) { CompletedMeansSettled(es, lo, hi, s); }
    if Settled(es, lo, hi) {
      forall id | id in s.effects { SettledMeansCompleted(es, lo, hi, s, id); }
    }
  }

  lemma VerificationStepKeeps(es: seq<JournalEvent>, sh: Shape, s: Lifecycle, e: JournalEvent, s': Lifecycle)
    requires Fits(es, sh) && Describes(es, sh, s) && Step(s, e, |es|) == Some(s')
    requires e.kind.VerificationStarted? || e.kind.VerifierRecorded?
    ensures Fits(es + [e], Grow(sh, e.kind)) && Describes(es + [e], Grow(sh, e.kind), s')
  {
    hide UniqueIds, EffectSegment, Justified, Accounted, AllCompleted, VerificationSegment;
    var es', sh' := es + [e], Grow(sh, e.kind);
    assert forall i | 0 <= i < |es| :: es'[i] == es[i];
    assert sh.End() == |es|;
    EffectsUnchanged(es, e, sh.provider, sh.verify, s, s');
    CompletedIsSettled(es, sh.provider, sh.verify, s);
    RoundsGrow(es, sh, e);
    assert Fits(es', sh');
  }

  lemma TerminalStepKeeps(es: seq<JournalEvent>, sh: Shape, s: Lifecycle, e: JournalEvent, s': Lifecycle)
    requires Fits(es, sh) && Describes(es, sh, s) && Step(s, e, |es|) == Some(s') && e.kind.TerminalPublished?
    ensures Fits(es + [e], sh) && Describes(es + [e], sh, s')
  {
    hide UniqueIds, EffectSegment, Accounted;
    var es' := es + [e];
    assert forall i | 0 <= i < |es| :: es'[i] == es[i];
    assert sh.End() == |es|;
    EffectsUnchanged(es, e, sh.provider, sh.verify, s, s');
    assert VerificationSegment(es', sh) by {
      forall k | 0 <= k < sh.rounds
        ensures Round(es', sh.verify, k)
      {
        assert Round(es, sh.verify, k);
      }
    }
    assert Fits(es', sh);
  }

  /** A step of the validator stays inside the grammar, and its state is the described one. */
  lemma StepKeeps(es: seq<JournalEvent>, sh: Shape, s: Lifecycle, e: JournalEvent, s': Lifecycle)
    requires Fits(es, sh) && Describes(es, sh, s) && Step(s, e, |es|) == Some(s')
    ensures Fits(es + [e], Grow(sh, e.kind)) && Describes(es + [e], Grow(sh, e.kind), s')
  {
    if IsProviderKind(e.kind) {
      ProviderStepKeeps(es, sh, s, e, s');
    } else if IsEffectKind(e.kind) {
      EffectStepKeeps(es, sh, s, e, s');
    } else if e.kind.TerminalPublished? {
      TerminalStepKeeps(es, sh, s, e, s');
    } else {
      VerificationStepKeeps(es, sh, s, e, s');
    }
  }

  /** Whatever the validator accepts fits the grammar, in the layout its state describes. */
  lemma {:induction false} AcceptedFits(es: seq<JournalEvent>) returns (sh: Shape)
    requires Accepted(es)
    ensures Fits(es, sh) && Describes(es, sh, Replay(es).value)
  {
    if es == [] {
      sh := Shape(0, 0, 0, false);
    } else {
      var n := |es| - 1;
      assert es == es[..n] + [es[n]];
      ReplayExtend(es[..n], es[n]);
      var before := AcceptedFits(es[..n]);
      StepKeeps(es[..n], before, Replay(es[..n]).value, es[n], Replay(es).value);
      sh := Grow(before, es[n].kind);
    }
  }

  // ----- everything in the grammar is accepted -----

  /** The layout without its last event. */
  function Shrink(sh: Shape, length: nat): Shape
    requires sh.provider <= sh.verify && sh.End() <= length && length > 0
  {
    if sh.End() < length then sh
    else if sh.open then sh.(open := false)
    else if sh.rounds > 0 then sh.(open := true, rounds := sh.rounds - 1)
    else if sh.provider < sh.verify then sh.(verify := sh.verify - 1)
    else if sh.provider > 0 then sh.(provider := sh.provider - 1, verify := sh.verify - 1)
    else sh
  }

  lemma GrowUndoesShrink(es: seq<JournalEvent>, sh: Shape)
    requires es != [] && Fits(es, sh)
    ensures Grow(Shrink(sh, |es|), es[|es| - 1].kind) == sh
  {
    var kind := es[|es| - 1].kind;
    if sh.End() < |es| {
      assert kind.TerminalPublished?;
    } else if sh.open {
      assert kind == VerificationStarted(sh.rounds);
    } else if sh.rounds > 0 {
      assert Round(es, sh.verify, sh.rounds - 1);
    } else if sh.provider < sh.verify {
      assert IsEffectKind(kind);
    } else {
      assert IsProviderKind(kind);
    }
  }

  lemma ShrinkEffects(es: seq<JournalEvent>, e: JournalEvent, lo: nat, hi: nat, hi': nat)
    requires lo <= hi' <= hi <= |es| + 1 && hi' <= |es| && EffectSegment(es + [e], lo, hi)
    ensures EffectSegment(es, lo, hi')
    ensures hi == hi' && Settled(es + [e], lo, hi) ==> Settled(es, lo, hi)
  {
    assert forall i | 0 <= i < |es| :: (es + [e])[i] == es[i];
    forall j | lo <= j < hi' && es[j].kind.EffectCompleted?
      ensures HasIntent(es, lo, j, es[j].kind.observation.effectId)
    {
      assert HasIntent(es + [e], lo, j, (es + [e])[j].kind.observation.effectId);
    }
    if hi == hi' && Settled(es + [e], lo, hi) {
      forall i | lo <= i < hi && es[i].kind.EffectIntent?
        ensures HasCompletion(es, lo, hi, es[i].kind.effectId)
      {
        assert HasCompletion(es + [e], lo, hi, (es + [e])[i].kind.effectId);
      }
    }
  }

  lemma ShrinkVerification(es: seq<JournalEvent>, e: JournalEvent, sh: Shape)
    requires sh.provider <= sh.verify && sh.End() <= |es| + 1 && VerificationSegment(es + [e], sh)
    ensures Shrink(sh, |es| + 1).End() <= |es|
    ensures VerificationSegment(es, Shrink(sh, |es| + 1))
  {
    var sh' := Shrink(sh, |es| + 1);
    assert forall i | 0 <= i < |es| :: (es + [e])[i] == es[i];
    forall k | 0 <= k < sh.rounds && sh.verify + 2 * k + 1 < |es|
      ensures Round(es, sh.verify, k)
    {
      assert Round(es + [e], sh.verify, k);
    }
    if !sh.open && sh.rounds > 0 { assert Round(es + [e], sh.verify, sh.rounds - 1); }
  }

  lemma ShrinkFits(es: seq<JournalEvent>, e: JournalEvent, sh: Shape)
    requires Fits(es + [e], sh)
    ensures Fits(es, Shrink(sh, |es| + 1))
  {
    var es', sh' := es + [e], Shrink(sh, |es| + 1);
    assert forall i | 0 <= i < |es| :: es'[i] == es[i];
    ShrinkVerification(es, e, sh);
    if sh.provider <= |es| {
      ShrinkEffects(es, e, sh.provider, sh.verify, sh'.verify);
    }
  }

  /** In a described state, the next event of a fitting journal is legal. */
  lemma StepAllowed(es: seq<JournalEvent>, e: JournalEvent, sh: Shape, s: Lifecycle)
    requires Fits(es + [e], sh)
    requires Fits(es, Shrink(sh, |es| + 1)) && Describes(es, Shrink(sh, |es| + 1), s)
    ensures Step(s, e, |es|).Some?
  {
    hide Fits, Describes, Step, Grow, Shrink;
    assert (es + [e])[|es|] == e;
    GrowUndoesShrink(es + [e], sh);
    if IsProviderKind(e.kind) {
      ProviderStepAllowed(es, e, sh, s);
    } else if IsEffectKind(e.kind) {
      EffectStepAllowed(es, e, sh, s);
    } else {
      VerificationAllowed(es, e, sh, s);
    }
  }

  lemma ProviderStepAllowed(es: seq<JournalEvent>, e: JournalEvent, sh: Shape, s: Lifecycle)
    requires IsProviderKind(e.kind)
    requires Fits(es + [e], sh) && Grow(Shrink(sh, |es| + 1), e.kind) == sh
    requires Fits(es, Shrink(sh, |es| + 1)) && Describes(es, Shrink(sh, |es| + 1), s)
    ensures Step(s, e, |es|).Some?
  {
    hide EffectSegment, VerificationSegment, Settled, Accounted, Justified;
    assert (es + [e])[|es|] == e;
    assert Link(e.kind) == |es|;
    if |es| == 4 { assert (es + [e])[3] == es[3]; }
  }

  lemma EffectStepAllowed(es: seq<JournalEvent>, e: JournalEvent, sh: Shape, s: Lifecycle)
    requires IsEffectKind(e.kind)
    requires Fits(es + [e], sh) && Grow(Shrink(sh, |es| + 1), e.kind) == sh
    requires Fits(es, Shrink(sh, |es| + 1)) && Describes(es, Shrink(sh, |es| + 1), s)
    ensures Step(s, e, |es|).Some?
  {
    hide EffectSegment, Settled, Accounted, Justified, StepEffect;
    assert (es + [e])[|es|] == e;
    EffectAllowed(es, e, sh.provider, s);
  }

  lemma VerificationAllowed(es: seq<JournalEvent>, e: JournalEvent, sh: Shape, s: Lifecycle)
    requires !IsProviderKind(e.kind) && !IsEffectKind(e.kind)
    requires Fits(es + [e], sh) && Grow(Shrink(sh, |es| + 1), e.kind) == sh
    requires Fits(es, Shrink(sh, |es| + 1)) && Describes(es, Shrink(sh, |es| + 1), s)
    ensures Step(s, e, |es|).Some?
  {
    var before := Shrink(sh, |es| + 1);
    assert (es + [e])[|es|] == e;
    EffectsUnchanged(es, e, before.provider, before.verify, s, s);
    CompletedIsSettled(es, before.provider, before.verify, s);
  }

  /** A fitting intent or commit names an effect that the state does not know. */
  lemma NewEffectUnknown(es: seq<JournalEvent>, e: JournalEvent, lo: nat, s: Lifecycle)
    requires lo <= |es| && IsEffectKind(e.kind) && EffectSegment(es + [e], lo, |es| + 1)
    requires Justified(es, lo, |es|, s) && !e.kind.EffectCompleted?
    ensures EffectId(e.kind) !in s.effects && EffectId(e.kind) !in s.legacyCommitted
  {
    var es', n, id := es + [e], |es|, EffectId(e.kind);
    assert es'[n] == e;
    assert forall i | 0 <= i < n :: es'[i] == es[i];
    assert forall i | lo <= i < n :: EffectId(es'[i].kind) != id;
  }

  /** A fitting completion answers an intent that the state holds without one. */
  lemma CompletedEffectOpen(es: seq<JournalEvent>, e: JournalEvent, lo: nat, s: Lifecycle)
    requires lo <= |es| && e.kind.EffectCompleted? && EffectSegment(es + [e], lo, |es| + 1)
    requires Accounted(es, lo, |es|, s) && Justified(es, lo, |es|, s)
    ensures EffectId(e.kind) in s.effects && s.effects[EffectId(e.kind)].completion.None?
  {
    var es', n, id := es + [e], |es|, EffectId(e.kind);
    assert es'[n] == e;
    HasExtend(es, e, lo, n, id);
    assert HasIntent(es, lo, n, id);
    assert forall i | 0 <= i < n :: es'[i] == es[i];
    assert forall i | lo <= i < n && EffectId(es'[i].kind) == id :: es'[i].kind.EffectIntent?;
  }

  lemma EffectAllowed(es: seq<JournalEvent>, e: JournalEvent, lo: nat, s: Lifecycle)
    requires lo <= |es| && IsEffectKind(e.kind) && EffectSegment(es + [e], lo, |es| + 1)
    requires Accounted(es, lo, |es|, s) && Justified(es, lo, |es|, s) && ProviderReady(s.providerStep)
    ensures StepEffect(s, e.kind).Some?
  {
    hide Accounted, Justified, UniqueIds, CompletionsAnswer;
    assert (es + [e])[|es|] == e;
    if e.kind.EffectCompleted? {
      CompletedEffectOpen(es, e, lo, s);
    } else {
      NewEffectUnknown(es, e, lo, s);
    }
  }

  /** One more fitting event is one more accepted step, with the described state. */
  lemma FittingStep(es: seq<JournalEvent>, e: JournalEvent, sh: Shape)
    requires Fits(es + [e], sh) && Fits(es, Shrink(sh, |es| + 1))
    requires Accepted(es) && Describes(es, Shrink(sh, |es| + 1), Replay(es).value)
    ensures Accepted(es + [e]) && Describes(es + [e], sh, Replay(es + [e]).value)
  {
    var before := Shrink(sh, |es| + 1);
    hide Fits, Describes, Step, Grow, Shrink;
    assert (es + [e])[|es|] == e && (es + [e])[..|es|] == es;
    StepAllowed(es, e, sh, Replay(es).value);
    ReplayExtend(es, e);
    StepKeeps(es, before, Replay(es).value, e, Replay(es + [e]).value);
    GrowUndoesShrink(es + [e], sh);
  }

  /** Whatever fits the grammar is accepted, and the rebuilt state is the described one. */
  lemma {:induction false} FittingAccepted(es: seq<JournalEvent>, sh: Shape)
    requires Fits(es, sh)
    ensures Accepted(es) && Describes(es, sh, Replay(es).value)
  {
    if es != [] {
      hide Fits, Shrink;
      var n := |es| - 1;
      var es', e := es[..n], es[n];
      assert es == es' + [e];
      ShrinkFits(es', e, sh);
      FittingAccepted(es', Shrink(sh, |es|));
      FittingStep(es', e, sh);
    }
  }

  /** The validator decides the grammar. */
  lemma ValidatorDecidesGrammar(es: seq<JournalEvent>)
    ensures Accepted(es) <==> Grammar(es)
  {
    if Accepted(es) {
      var sh := AcceptedFits(es);
    }
    if Grammar(es) {
      var sh :| Fits(es, sh);
      FittingAccepted(es, sh);
    }
  }
}
