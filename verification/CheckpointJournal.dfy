/**
 The journal on disk and the methods that write it. Every durable step may fail or be cut
 off by a crash, leaving nothing, a torn file or a whole file; each method is proved to do
 exactly what the corresponding function on the disk says, for every such fault.

 A file name carries the digest of the intended bytes, so a name is modelled by the event
 it names, and a torn file never matches its name. One process at a time writes a journal.
 */
module CheckpointJournal {
  import opened Words
  import opened Wrappers
  import opened Journal
  import opened Recorders

  datatype RunLimits = RunLimits(
    maxTurns: nat, maxTokens: nat, maxOutputBytes: nat, maxRepairAttempts: nat)

  /** A run request; equality stands for equality of its checkpoint identity digests. */
  datatype RunRequest = RunRequest(
    runId: string, runtime: string, modelIdentifier: string, adapterVersion: string,
    limits: RunLimits, requestDigest: Digest)

  datatype IdentityFile = BoundTo(request: RunRequest) | TornIdentity

  datatype Body = Whole(event: JournalEvent) | Torn

  /** An event file; its name holds the sequence number and the digest of `named`. */
  datatype EventFile = EventFile(sequence: nat, named: JournalEvent, body: Body)

  datatype TerminalBody = WholeRecord(bytes: seq<byte>) | TornRecord

  datatype TerminalFile = TerminalFile(nameDigest: Digest, body: TerminalBody)

  /** Everything durable. The event directory is listed in name order. */
  datatype Disk = Disk(
    identity: Option<IdentityFile>, files: seq<EventFile>, terminals: seq<TerminalFile>)

  const BLANK: Disk := Disk(None, [], [])

  /** How much of a new file had reached the disk when its creation was cut off. */
  datatype Extent = Nothing | Part | All

  /** The one failure an operation meets: an I/O error, or a crash of the process. */
  datatype Fault =
    | Healthy
    | Unreadable(crash: bool)
    | AtIdentity(extent: Extent, crash: bool)
    | AtEvent(extent: Extent, crash: bool)
    | AtTerminal(extent: Extent, crash: bool)

  datatype Outcome<+T> = Done(value: T) | Refused(error: RecoveryError) | Crashed

  function Stop<T>(crash: bool): Outcome<T> {
    if crash then Crashed else Refused(Io)
  }

  // ----- the disk operations -----

  function Bind(d: Disk, request: RunRequest, fault: Fault): (Disk, Outcome<()>) {
    match d.identity
    case Some(BoundTo(bound)) => if bound == request then (d, Done(())) else (d, Refused(IdentityMismatch))
    case Some(TornIdentity) => (d, Refused(IdentityMismatch))
    case None =>
      var bound := d.(identity := Some(BoundTo(request)));
      if !fault.AtIdentity? then (bound, Done(()))
      else (match fault.extent
            case Nothing => d
            case Part => d.(identity := Some(TornIdentity))
            case All => bound,
            Stop(fault.crash))
  }

  predicate FileSound(file: EventFile, index: nat) {
    && file.sequence == index
    && file.body == Whole(file.named)
    && file.named.schemaVersion == EVENT_SCHEMA
    && file.named.sequence == index
  }

  function Named(files: seq<EventFile>): (es: seq<JournalEvent>)
    ensures |es| == |files|
    ensures forall i | 0 <= i < |files| :: es[i] == files[i].named
  {
    if files == [] then [] else Named(files[..|files| - 1]) + [files[|files| - 1].named]
  }

  /** The events of a journal directory; `None` when any file or the lifecycle is invalid. */
  function Load(files: seq<EventFile>): Option<seq<JournalEvent>> {
    if (forall i | 0 <= i < |files| :: FileSound(files[i], i)) && Accepted(Named(files)) then Some(Named(files))
    else None
  }

  function Read(d: Disk, fault: Fault): Outcome<seq<JournalEvent>> {
    if fault.Unreadable? then Stop(fault.crash)
    else match Load(d.files)
      case None => Refused(EventSequenceInvalid)
      case Some(es) => Done(es)
  }

  function NewFile(es: seq<JournalEvent>, kind: EventKind, whole: bool): EventFile {
    var event := NextEvent(es, kind);
    EventFile(|es|, event, if whole then Whole(event) else Torn)
  }

  function Append(d: Disk, kind: EventKind, fault: Fault): (Disk, Outcome<()>) {
    match Load(d.files)
    case None => (d, Refused(EventSequenceInvalid))
    case Some(es) =>
      if !Appendable(es, kind) then (d, Refused(EventSequenceInvalid))
      else
        var appended := d.(files := d.files + [NewFile(es, kind, true)]);
        if !fault.AtEvent? then (appended, Done(()))
        else (match fault.extent
              case Nothing => d
              case Part => d.(files := d.files + [NewFile(es, kind, false)])
              case All => appended,
              Stop(fault.crash))
  }

  /** Every operation first binds the request and loads the events. */
  function BoundRead(d: Disk, request: RunRequest, fault: Fault): (Disk, Outcome<seq<JournalEvent>>) {
    var (d1, bound) := Bind(d, request, fault);
    match bound
    case Refused(e) => (d1, Refused(e))
    case Crashed => (d1, Crashed)
    case Done(_) => (d1, Read(d1, fault))
  }

  /** Decide on the loaded state, then append under full validation. */
  function Act(d: Disk, s: Lifecycle, op: Operation, fault: Fault): (Disk, Outcome<()>) {
    match Decide(s, op)
    case Failure(e) => (d, Refused(e))
    case Success(None) => (d, Done(()))
    case Success(Some(kind)) => Append(d, kind, fault)
  }

  /** A `record_*` operation. */
  function Perform(d: Disk, request: RunRequest, op: Operation, fault: Fault): (Disk, Outcome<()>) {
    if op.FinishEffect? && op.observation.effectId != op.finished.effectId then (d, Refused(EffectIdentityMismatch))
    else
      var (d1, read) := BoundRead(d, request, fault);
      match read
      case Refused(e) => (d1, Refused(e))
      case Crashed => (d1, Crashed)
      case Done(es) => Act(d1, Replay(es).value, op, fault)
  }

  /** The read of an operation comes first, and decides unless it succeeds. */
  lemma PerformReads(d: Disk, request: RunRequest, op: Operation, fault: Fault)
    requires op.FinishEffect? ==> op.observation.effectId == op.finished.effectId
    ensures var (d1, read) := BoundRead(d, request, fault);
            Perform(d, request, op, fault) ==
            match read
            case Refused(e) => (d1, Refused(e))
            case Crashed => (d1, Crashed)
            case Done(es) => Act(d1, Replay(es).value, op, fault)
  {
  }

  // ----- the states of a turn's effects -----

  predicate DistinctIds(effects: seq<EffectRequest>) {
    forall i, j | 0 <= i < j < |effects| :: effects[i].effectId != effects[j].effectId
  }

  predicate Lists(effects: seq<EffectRequest>, id: string) {
    exists i | 0 <= i < |effects| :: effects[i].effectId == id
  }

  function RecordedState(s: Lifecycle, id: string): EffectState {
    if id !in s.effects then Fresh
    else match s.effects[id].completion
      case None => Unknown
      case Some(o) => Completed(o)
  }

  /** When `effect_states` answers at all: the turn covers the journal and nothing drifted. */
  predicate TurnCoversJournal(s: Lifecycle, runId: string, effects: seq<EffectRequest>) {
    && DistinctIds(effects)
    && (forall i | 0 <= i < |effects| :: effects[i].runId == runId)
    && (forall id | id in s.effects :: Lists(effects, id))
    && (forall i | 0 <= i < |effects| ::
          if effects[i].effectId in s.effects then s.effects[effects[i].effectId].digest == effects[i].digest
          else !SeenVerification(s))
  }

  // ----- the terminal record -----

  /** The digests of the terminal events, as `terminal_record` collects them. */
  function RecordedTerminals(es: seq<JournalEvent>): seq<Digest> {
    if es == [] then []
    else
      var last := |es| - 1;
      RecordedTerminals(es[..last]) +
      (if es[last].kind.TerminalPublished? then [es[last].kind.recordDigest] else [])
  }

  function ListOf(g: Option<Digest>): seq<Digest> {
    if g.Some? then [g.value] else []
  }

  lemma {:induction false} RecordedTerminalsAre(es: seq<JournalEvent>)
    requires Accepted(es)
    ensures RecordedTerminals(es) == ListOf(Replay(es).value.terminalDigest)
  {
    if es != [] {
      var n := |es| - 1;
      assert es == es[..n] + [es[n]];
      ReplayExtend(es[..n], es[n]);
      RecordedTerminalsAre(es[..n]);
    }
  }

  datatype Terminal = Terminal(digest: Digest, bytes: seq<byte>, recorded: bool)

  /** The one retained record, checked against its name and against the recorded event. */
  function TerminalRecord(hash: seq<byte> -> Digest, terminals: seq<TerminalFile>, recorded: Option<Digest>)
    : Result<Option<Terminal>, RecoveryError>
  {
    if |terminals| > 1 then Failure(EventDigestMismatch)
    else if terminals == [] then
      if recorded.None? then Success(None) else Failure(EventDigestMismatch)
    else
      var file := terminals[0];
      match file.body
      case TornRecord => Failure(EventDigestMismatch)
      case WholeRecord(bytes) =>
        if hash(bytes) != file.nameDigest || (recorded.Some? && recorded.value != file.nameDigest) then
          Failure(EventDigestMismatch)
        else Success(Some(Terminal(file.nameDigest, bytes, recorded.Some?)))
  }

  predicate VerificationComplete(s: Lifecycle) {
    s.verifierRecords != 0 && !s.verificationOpen
  }

  function FinishPublish(d: Disk, digest: Digest, fault: Fault): (Disk, Outcome<Digest>) {
    var (d1, r) := Append(d, TerminalPublished(digest), fault);
    match r
    case Done(_) => (d1, Done(digest))
    case Refused(e) => (d1, Refused(e))
    case Crashed => (d1, Crashed)
  }

  /** Nothing retained yet: create the content-addressed file, then append its event. */
  function PublishFirst(hash: seq<byte> -> Digest, d: Disk, bytes: seq<byte>, fault: Fault): (Disk, Outcome<Digest>) {
    var digest := hash(bytes);
    var created := d.(terminals := [TerminalFile(digest, WholeRecord(bytes))]);
    if fault.AtTerminal? then
      (match fault.extent
       case Nothing => d
       case Part => d.(terminals := [TerminalFile(digest, TornRecord)])
       case All => created,
       Stop(fault.crash))
    else FinishPublish(created, digest, fault)
  }

  /** A retained record admits only its own bytes. */
  function PublishAgain(hash: seq<byte> -> Digest, d: Disk, t: Terminal, bytes: seq<byte>, fault: Fault)
    : (Disk, Outcome<Digest>)
  {
    if t.digest != hash(bytes) || t.bytes != bytes then (d, Refused(EventDigestMismatch))
    else if t.recorded then (d, Done(t.digest))
    else FinishPublish(d, t.digest, fault)
  }

  function PublishLoaded(
    hash: seq<byte> -> Digest, d: Disk, s: Lifecycle, bytes: seq<byte>, fault: Fault): (Disk, Outcome<Digest>)
  {
    if !ReadyForEffects(s.provider) then (d, Refused(EventSequenceInvalid))
    else if !VerificationComplete(s) then (d, Refused(VerifierEventMissing))
    else match TerminalRecord(hash, d.terminals, s.terminalDigest)
      case Failure(e) => (d, Refused(e))
      case Success(Some(t)) => PublishAgain(hash, d, t, bytes, fault)
      case Success(None) => PublishFirst(hash, d, bytes, fault)
  }

  /** `publish_terminal_record`. */
  function Publish(hash: seq<byte> -> Digest, d: Disk, request: RunRequest, bytes: seq<byte>, fault: Fault)
    : (Disk, Outcome<Digest>)
  {
    var (d1, read) := BoundRead(d, request, fault);
    match read
    case Refused(e) => (d1, Refused(e))
    case Crashed => (d1, Crashed)
    case Done(es) => PublishLoaded(hash, d1, Replay(es).value, bytes, fault)
  }

  function RetainedLoaded(hash: seq<byte> -> Digest, d: Disk, s: Lifecycle): Outcome<Option<seq<byte>>> {
    if !ReadyForEffects(s.provider) then Refused(EventSequenceInvalid)
    else match TerminalRecord(hash, d.terminals, s.terminalDigest)
      case Failure(e) => Refused(e)
      case Success(None) => Done(None)
      case Success(Some(t)) =>
        if !VerificationComplete(s) then Refused(VerifierEventMissing) else Done(Some(t.bytes))
  }

  /** `retained_terminal_record`. */
  function Retained(hash: seq<byte> -> Digest, d: Disk, request: RunRequest, fault: Fault)
    : (Disk, Outcome<Option<seq<byte>>>)
  {
    var (d1, read) := BoundRead(d, request, fault);
    match read
    case Refused(e) => (d1, Refused(e))
    case Crashed => (d1, Crashed)
    case Done(es) => (d1, RetainedLoaded(hash, d1, Replay(es).value))
  }

  function Recovered(published: (Disk, Outcome<Digest>), bytes: seq<byte>): (Disk, Outcome<Option<seq<byte>>>) {
    match published.1
    case Refused(e) => (published.0, Refused(e))
    case Crashed => (published.0, Crashed)
    case Done(_) => (published.0, Done(Some(bytes)))
  }

  /** `recover_terminal_record`. */
  function Recover(hash: seq<byte> -> Digest, d: Disk, request: RunRequest, fault: Fault)
    : (Disk, Outcome<Option<seq<byte>>>)
  {
    var (d1, retained) := Retained(hash, d, request, fault);
    if retained.Done? && retained.value.Some? then
      Recovered(Publish(hash, d1, request, retained.value.value, fault), retained.value.value)
    else (d1, retained)
  }

  // ----- the journal object -----

  class CheckpointJournal {
    /** The digest of raw bytes. */
    const hash: seq<byte> -> Digest
    var identity: Option<IdentityFile>
    var files: seq<EventFile>
    var terminals: seq<TerminalFile>

    function Contents(): Disk
      reads this
    {
      Disk(identity, files, terminals)
    }

    constructor (hash: seq<byte> -> Digest)
      ensures this.hash == hash && Contents() == BLANK
    {
      this.hash := hash;
      identity, files, terminals := None, [], [];
    }

    method BindRequest(request: RunRequest, fault: Fault) returns (r: Outcome<()>)
      modifies this`identity
      ensures (Contents(), r) == Bind(old(Contents()), request, fault)
    {
      if identity.Some? {
        return if identity.value == BoundTo(request) then Done(()) else Refused(IdentityMismatch);
      }
      if fault.AtIdentity? {
        match fault.extent {
          case Nothing =>
          case Part => identity := Some(TornIdentity);
          case All => identity := Some(BoundTo(request));
        }
        return Stop(fault.crash);
      }
      identity := Some(BoundTo(request));
      return Done(());
    }

    /** The events of files that are whole, numbered from 0 and as their names say. */
    static method CheckFiles(files: seq<EventFile>) returns (r: Option<seq<JournalEvent>>)
      ensures r == if forall i | 0 <= i < |files| :: FileSound(files[i], i) then Some(Named(files)) else None
    {
      var events := [];
      for i := 0 to |files|
        invariant forall k | 0 <= k < i :: FileSound(files[k], k)
        invariant events == Named(files[..i])
      {
        var file := files[i];
        if file.sequence != i || file.body != Whole(file.named) { return None; }
        var event := file.body.event;
        if event.schemaVersion != EVENT_SCHEMA || event.sequence != i { return None; }
        assert files[..i + 1][..i] == files[..i];
        events := events + [event];
      }
      assert files[..|files|] == files;
      return Some(events);
    }

    method LoadExecutionEvents(fault: Fault) returns (r: Outcome<seq<JournalEvent>>)
      ensures r == Read(Contents(), fault)
    {
      hide FileSound, Replay, Named;
      if fault.Unreadable? { return Stop(fault.crash); }
      var events := CheckFiles(files);
      if events.None? { return Refused(EventSequenceInvalid); }
      var lifecycle := ValidateJournalLifecycle(events.value);
      return if lifecycle.None? then Refused(EventSequenceInvalid) else Done(events.value);
    }

    method AppendExecutionEvent(kind: EventKind, fault: Fault) returns (r: Outcome<()>)
      requires !fault.Unreadable?
      modifies this`files
      ensures (Contents(), r) == Append(old(Contents()), kind, fault)
    {
      var loaded := LoadExecutionEvents(fault);
      if loaded.Refused? { return Refused(loaded.error); }
      var events := loaded.value;
      var event := NextEvent(events, kind);
      var lifecycle := ValidateJournalLifecycle(events + [event]);
      if lifecycle.None? { return Refused(EventSequenceInvalid); }
      if fault.AtEvent? {
        match fault.extent {
          case Nothing =>
          case Part => files := files + [EventFile(|events|, event, Torn)];
          case All => files := files + [EventFile(|events|, event, Whole(event))];
        }
        return Stop(fault.crash);
      }
      files := files + [EventFile(|events|, event, Whole(event))];
      return Done(());
    }

    /** Binds the request and rebuilds the lifecycle. */
    method Lifecycle(request: RunRequest, fault: Fault) returns (r: Outcome<Lifecycle>)
      modifies this`identity
      ensures Contents() == BoundRead(old(Contents()), request, fault).0
      ensures r == match BoundRead(old(Contents()), request, fault).1
                   case Refused(e) => Refused(e)
                   case Crashed => Crashed
                   case Done(es) => Done(Replay(es).value)
      ensures r.Done? ==> !fault.Unreadable?
    {
      var bound := BindRequest(request, fault);
      if bound.Refused? { return Refused(bound.error); }
      if bound.Crashed? { return Crashed; }
      var loaded := LoadExecutionEvents(fault);
      if loaded.Refused? { return Refused(loaded.error); }
      if loaded.Crashed? { return Crashed; }
      var lifecycle := ValidateJournalLifecycle(loaded.value);
      return Done(lifecycle.value);
    }

    method RecordProviderRequestIntent(request: RunRequest, prepared: Digest, authority: Digest, fault: Fault)
      returns (r: Outcome<()>)
      modifies this`identity, this`files
      ensures (Contents(), r) == Perform(old(Contents()), request, ProviderIntent(prepared, authority), fault)
    {
      hide Perform, BoundRead, Append, Replay;
      ghost var op := ProviderIntent(prepared, authority);
      PerformReads(Contents(), request, op, fault);
      var read := Lifecycle(request, fault);
      if read.Refused? { return Refused(read.error); }
      if read.Crashed? { return Crashed; }
      var lifecycle := read.value;
      if lifecycle.provider.preparedRunDigest.Some? || lifecycle.effectSeen { return Refused(EventSequenceInvalid); }
      r := AppendExecutionEvent(ProviderRequestIntent(prepared, authority), fault);
    }

    method RecordProviderProcessStarted(request: RunRequest, invocation: Digest, fault: Fault)
      returns (r: Outcome<()>)
      modifies this`identity, this`files
      ensures (Contents(), r) == Perform(old(Contents()), request, ProcessStarted(invocation), fault)
    {
      hide Perform, BoundRead, Append, Replay;
      ghost var op := ProcessStarted(invocation);
      PerformReads(Contents(), request, op, fault);
      var read := Lifecycle(request, fault);
      if read.Refused? { return Refused(read.error); }
      if read.Crashed? { return Crashed; }
      var state := read.value.provider;
      if state.preparedRunDigest.None? || state.invocationDigest.Some? { return Refused(EventSequenceInvalid); }
      r := AppendExecutionEvent(ProviderProcessStarted(invocation), fault);
    }

    method RecordProviderOutputRetained(request: RunRequest, raw: Digest, fault: Fault) returns (r: Outcome<()>)
      modifies this`identity, this`files
      ensures (Contents(), r) == Perform(old(Contents()), request, OutputRetained(raw), fault)
    {
      hide Perform, BoundRead, Append, Replay;
      ghost var op := OutputRetained(raw);
      PerformReads(Contents(), request, op, fault);
      var read := Lifecycle(request, fault);
      if read.Refused? { return Refused(read.error); }
      if read.Crashed? { return Crashed; }
      var state := read.value.provider;
      if state.invocationDigest.None? || state.rawCaptureDigest.Some? { return Refused(EventSequenceInvalid); }
      r := AppendExecutionEvent(ProviderOutputRetained(raw), fault);
    }

    method RecordProviderCapturePublished(request: RunRequest, index: Digest, fault: Fault) returns (r: Outcome<()>)
      modifies this`identity, this`files
      ensures (Contents(), r) == Perform(old(Contents()), request, CapturePublished(index), fault)
    {
      hide Perform, BoundRead, Append, Replay;
      ghost var op := CapturePublished(index);
      PerformReads(Contents(), request, op, fault);
      var read := Lifecycle(request, fault);
      if read.Refused? { return Refused(read.error); }
      if read.Crashed? { return Crashed; }
      var state := read.value.provider;
      if state.rawCaptureDigest.None? || state.captureIndexDigest.Some? { return Refused(EventSequenceInvalid); }
      r := AppendExecutionEvent(ProviderCaptureIndexPublished(index), fault);
    }

    method RecordProviderCaptureVerified(request: RunRequest, index: Digest, fault: Fault) returns (r: Outcome<()>)
      modifies this`identity, this`files
      ensures (Contents(), r) == Perform(old(Contents()), request, CaptureVerified(index), fault)
    {
      hide Perform, BoundRead, Append, Replay;
      ghost var op := CaptureVerified(index);
      PerformReads(Contents(), request, op, fault);
      var read := Lifecycle(request, fault);
      if read.Refused? { return Refused(read.error); }
      if read.Crashed? { return Crashed; }
      var state := read.value.provider;
      if state.captureIndexDigest != Some(index) || state.captureVerified { return Refused(EventSequenceInvalid); }
      r := AppendExecutionEvent(ProviderCaptureVerified(index), fault);
    }

    method RecordAdapterTurnNormalized(request: RunRequest, turn: Digest, fault: Fault) returns (r: Outcome<()>)
      modifies this`identity, this`files
      ensures (Contents(), r) == Perform(old(Contents()), request, TurnNormalized(turn), fault)
    {
      hide Perform, BoundRead, Append, Replay;
      ghost var op := TurnNormalized(turn);
      PerformReads(Contents(), request, op, fault);
      var read := Lifecycle(request, fault);
      if read.Refused? { return Refused(read.error); }
      if read.Crashed? { return Crashed; }
      var state := read.value.provider;
      if !state.captureVerified { return Refused(EventSequenceInvalid); }
      if state.adapterTurnDigest.Some? {
        return if state.adapterTurnDigest.value == turn then Done(()) else Refused(EventDigestMismatch);
      }
      r := AppendExecutionEvent(AdapterTurnNormalized(turn), fault);
    }

    method RecordEffectIntent(request: RunRequest, effect: EffectRequest, fault: Fault) returns (r: Outcome<()>)
      modifies this`identity, this`files
      ensures (Contents(), r) == Perform(old(Contents()), request, BeginEffect(effect), fault)
    {
      hide Perform, BoundRead, Append, Replay;
      ghost var op := BeginEffect(effect);
      PerformReads(Contents(), request, op, fault);
      var read := Lifecycle(request, fault);
      if read.Refused? { return Refused(read.error); }
      if read.Crashed? { return Crashed; }
      var lifecycle := read.value;
      var state := StateOf(lifecycle, effect);
      if state.Failure? { return Refused(state.error); }
      if state.value != Fresh { return Refused(EventSequenceInvalid); }
      r := AppendExecutionEvent(EffectIntent(effect.effectId, effect.digest), fault);
    }

    method RecordEffectCompletion(
      request: RunRequest, effect: EffectRequest, observation: EffectObservation, fault: Fault)
      returns (r: Outcome<()>)
      modifies this`identity, this`files
      ensures (Contents(), r) == Perform(old(Contents()), request, FinishEffect(effect, observation), fault)
    {
      hide BoundRead, Append, Replay;
      if observation.effectId != effect.effectId { return Refused(EffectIdentityMismatch); }
      hide Perform;
      ghost var op := FinishEffect(effect, observation);
      PerformReads(Contents(), request, op, fault);
      var read := Lifecycle(request, fault);
      if read.Refused? { return Refused(read.error); }
      if read.Crashed? { return Crashed; }
      var lifecycle := read.value;
      var state := StateOf(lifecycle, effect);
      if state.Failure? { return Refused(state.error); }
      if state.value != Unknown { return Refused(EffectIdentityMismatch); }
      r := AppendExecutionEvent(EffectCompleted(observation), fault);
    }

    method BeginVerification(request: RunRequest, fault: Fault) returns (r: Outcome<()>)
      modifies this`identity, this`files
      ensures (Contents(), r) == Perform(old(Contents()), request, Operation.BeginVerification, fault)
    {
      hide Perform, BoundRead, Append, Replay;
      ghost var op := Operation.BeginVerification;
      PerformReads(Contents(), request, op, fault);
      var read := Lifecycle(request, fault);
      if read.Refused? { return Refused(read.error); }
      if read.Crashed? { return Crashed; }
      var lifecycle := read.value;
      if !ReadyForEffects(lifecycle.provider) || lifecycle.terminalDigest.Some? {
        return Refused(EventSequenceInvalid);
      }
      if lifecycle.verificationOpen { return Done(()); }
      r := AppendExecutionEvent(VerificationStarted(lifecycle.verifierRecords), fault);
    }

    method RecordVerifier(request: RunRequest, report: Digest, fault: Fault) returns (r: Outcome<()>)
      modifies this`identity, this`files
      ensures (Contents(), r) == Perform(old(Contents()), request, Operation.RecordVerifier(report), fault)
    {
      hide Perform, BoundRead, Append, Replay;
      ghost var op := Operation.RecordVerifier(report);
      PerformReads(Contents(), request, op, fault);
      var read := Lifecycle(request, fault);
      if read.Refused? { return Refused(read.error); }
      if read.Crashed? { return Crashed; }
      var lifecycle := read.value;
      if !ReadyForEffects(lifecycle.provider) || !lifecycle.verificationOpen
         || lifecycle.terminalDigest.Some? {
        return Refused(EventSequenceInvalid);
      }
      r := AppendExecutionEvent(VerifierRecorded(report), fault);
    }

    /** The durable states of a turn's effects, in the order of the turn. */
    method EffectStates(request: RunRequest, effects: seq<EffectRequest>, fault: Fault)
      returns (r: Outcome<seq<EffectState>>)
      modifies this`identity
      ensures Contents() == BoundRead(old(Contents()), request, fault).0
      ensures match BoundRead(old(Contents()), request, fault).1
              case Refused(e) => r == Refused(e)
              case Crashed => r == Crashed
              case Done(es) =>
                var s := Replay(es).value;
                if !ReadyForEffects(s.provider) then r == Refused(EventSequenceInvalid)
                else if !TurnCoversJournal(s, request.runId, effects) then r == Refused(EffectIdentityMismatch)
                else r.Done? && |r.value| == |effects|
                     && forall i | 0 <= i < |effects| :: r.value[i] == RecordedState(s, effects[i].effectId)
    {
      var read := Lifecycle(request, fault);
      if read.Refused? { return Refused(read.error); }
      if read.Crashed? { return Crashed; }
      var lifecycle := read.value;
      if !ReadyForEffects(lifecycle.provider) { return Refused(EventSequenceInvalid); }
      r := CollectStates(lifecycle, request.runId, effects);
    }

    static method CollectStates(lifecycle: Lifecycle, runId: string, effects: seq<EffectRequest>)
      returns (r: Outcome<seq<EffectState>>)
      ensures !TurnCoversJournal(lifecycle, runId, effects) ==> r == Refused(EffectIdentityMismatch)
      ensures TurnCoversJournal(lifecycle, runId, effects) ==>
                r.Done? && |r.value| == |effects|
                && forall i | 0 <= i < |effects| :: r.value[i] == RecordedState(lifecycle, effects[i].effectId)
    {
      var expected := ExpectedIds(runId, effects);
      if expected.None? { return Refused(EffectIdentityMismatch); }
      if exists id | id in lifecycle.effects :: id !in expected.value { return Refused(EffectIdentityMismatch); }
      if SeenVerification(lifecycle) && exists id | id in expected.value :: id !in lifecycle.effects {
        return Refused(EffectIdentityMismatch);
      }
      assert forall i | 0 <= i < |effects| :: effects[i].effectId in expected.value;
      var states := [];
      for i := 0 to |effects|
        invariant |states| == i
        invariant forall k | 0 <= k < i :: states[k] == RecordedState(lifecycle, effects[k].effectId)
        invariant forall k | 0 <= k < i && effects[k].effectId in lifecycle.effects ::
                    lifecycle.effects[effects[k].effectId].digest == effects[k].digest
      {
        var id := effects[i].effectId;
        if id in lifecycle.effects && lifecycle.effects[id].digest != effects[i].digest {
          return Refused(EffectIdentityMismatch);
        }
        states := states + [RecordedState(lifecycle, id)];
      }
      return Done(states);
    }

    /** The ids a turn lists, provided that they are distinct and all belong to the run. */
    static method ExpectedIds(runId: string, effects: seq<EffectRequest>) returns (r: Option<set<string>>)
      ensures r.Some? <==> DistinctIds(effects) && forall i | 0 <= i < |effects| :: effects[i].runId == runId
      ensures r.Some? ==> forall id :: id in r.value <==> Lists(effects, id)
    {
      var expected: set<string> := {};
      for i := 0 to |effects|
        invariant forall k | 0 <= k < i :: effects[k].runId == runId
        invariant forall k | 0 <= k < i :: effects[k].effectId in expected
        invariant forall id | id in expected :: Lists(effects, id)
        invariant forall id | id in expected :: exists k | 0 <= k < i :: effects[k].effectId == id
        invariant DistinctIds(effects[..i])
      {
        if effects[i].runId != runId || effects[i].effectId in expected { return None; }
        expected := expected + {effects[i].effectId};
      }
      assert effects[..|effects|] == effects;
      return Some(expected);
    }

    method ReadTerminalRecord(events: seq<JournalEvent>) returns (r: Result<Option<Terminal>, RecoveryError>)
      requires Accepted(events)
      ensures r == TerminalRecord(hash, terminals, Replay(events).value.terminalDigest)
    {
      var recorded := [];
      for i := 0 to |events|
        invariant recorded == RecordedTerminals(events[..i])
      {
        assert events[..i + 1][..i] == events[..i];
        if events[i].kind.TerminalPublished? { recorded := recorded + [events[i].kind.recordDigest]; }
      }
      assert events[..|events|] == events;
      RecordedTerminalsAre(events);
      if |recorded| > 1 { return Failure(EventSequenceInvalid); }
      if |terminals| > 1 { return Failure(EventDigestMismatch); }
      if terminals == [] {
        return if recorded == [] then Success(None) else Failure(EventDigestMismatch);
      }
      var file := terminals[0];
      if file.body.TornRecord? { return Failure(EventDigestMismatch); }
      var bytes := file.body.bytes;
      if hash(bytes) != file.nameDigest || (recorded != [] && recorded[0] != file.nameDigest) {
        return Failure(EventDigestMismatch);
      }
      return Success(Some(Terminal(file.nameDigest, bytes, recorded != [])));
    }

    /** Binds the request and loads the events, as every terminal operation begins. */
    method BoundEvents(request: RunRequest, fault: Fault) returns (r: Outcome<seq<JournalEvent>>)
      modifies this`identity
      ensures (Contents(), r) == BoundRead(old(Contents()), request, fault)
    {
      var bound := BindRequest(request, fault);
      if bound.Refused? { return Refused(bound.error); }
      if bound.Crashed? { return Crashed; }
      r := LoadExecutionEvents(fault);
    }

    method AppendTerminalEvent(digest: Digest, fault: Fault) returns (r: Outcome<Digest>)
      requires !fault.Unreadable?
      modifies this`files
      ensures (Contents(), r) == FinishPublish(old(Contents()), digest, fault)
    {
      var appended := AppendExecutionEvent(TerminalPublished(digest), fault);
      return match appended
        case Done(_) => Done(digest)
        case Refused(e) => Refused(e)
        case Crashed => Crashed;
    }

    method PublishTerminalRecord(request: RunRequest, bytes: seq<byte>, fault: Fault) returns (r: Outcome<Digest>)
      modifies this
      ensures (Contents(), r) == Publish(hash, old(Contents()), request, bytes, fault)
    {
      var read := BoundEvents(request, fault);
      if read.Refused? { return Refused(read.error); }
      if read.Crashed? { return Crashed; }
      var lifecycle := ValidateJournalLifecycle(read.value);
      if !ReadyForEffects(lifecycle.value.provider) { return Refused(EventSequenceInvalid); }
      if lifecycle.value.verifierRecords == 0 || lifecycle.value.verificationOpen {
        return Refused(VerifierEventMissing);
      }
      var digest := hash(bytes);
      var existing := ReadTerminalRecord(read.value);
      if existing.Failure? { return Refused(existing.error); }
      if existing.value.Some? {
        var terminal := existing.value.value;
        if terminal.digest != digest || terminal.bytes != bytes { return Refused(EventDigestMismatch); }
        if terminal.recorded { return Done(digest); }
        r := AppendTerminalEvent(digest, fault);
        return;
      }
      if fault.AtTerminal? {
        match fault.extent {
          case Nothing =>
          case Part => terminals := [TerminalFile(digest, TornRecord)];
          case All => terminals := [TerminalFile(digest, WholeRecord(bytes))];
        }
        return Stop(fault.crash);
      }
      terminals := [TerminalFile(digest, WholeRecord(bytes))];
      r := AppendTerminalEvent(digest, fault);
    }

    method RetainedTerminalRecord(request: RunRequest, fault: Fault) returns (r: Outcome<Option<seq<byte>>>)
      modifies this`identity
      ensures (Contents(), r) == Retained(hash, old(Contents()), request, fault)
    {
      var read := BoundEvents(request, fault);
      if read.Refused? { return Refused(read.error); }
      if read.Crashed? { return Crashed; }
      var lifecycle := ValidateJournalLifecycle(read.value);
      if !ReadyForEffects(lifecycle.value.provider) { return Refused(EventSequenceInvalid); }
      var terminal := ReadTerminalRecord(read.value);
      if terminal.Failure? { return Refused(terminal.error); }
      if terminal.value.None? { return Done(None); }
      if lifecycle.value.verifierRecords == 0 || lifecycle.value.verificationOpen {
        return Refused(VerifierEventMissing);
      }
      return Done(Some(terminal.value.value.bytes));
    }

    method RecoverTerminalRecord(request: RunRequest, fault: Fault) returns (r: Outcome<Option<seq<byte>>>)
      modifies this
      ensures (Contents(), r) == Recover(hash, old(Contents()), request, fault)
    {
      var retained := RetainedTerminalRecord(request, fault);
      if !retained.Done? || retained.value.None? { return retained; }
      var bytes := retained.value.value;
      var published := PublishTerminalRecord(request, bytes, fault);
      if published.Refused? { return Refused(published.error); }
      if published.Crashed? { return Crashed; }
      return Done(Some(bytes));
    }
  }
}
