/**
 What holds of a journal disk after any history of operations, each of which may have been
 cut short by an I/O error or a crash.
 */
module JournalHistory {
  import opened Words
  import opened Wrappers
  import opened Journal
  import opened Recorders
  import opened CheckpointJournal

  /** One call on the journal, with the failure it meets. */
  datatype Action =
    | Record(request: RunRequest, op: Operation, fault: Fault)
    | PublishTerminal(request: RunRequest, bytes: seq<byte>, fault: Fault)
    | RecoverTerminal(request: RunRequest, fault: Fault)

  function After(hash: seq<byte> -> Digest, d: Disk, a: Action): Disk {
    match a
    case Record(request, op, fault) => Perform(d, request, op, fault).0
    case PublishTerminal(request, bytes, fault) => Publish(hash, d, request, bytes, fault).0
    case RecoverTerminal(request, fault) => Recover(hash, d, request, fault).0
  }

  function AfterAll(hash: seq<byte> -> Digest, d: Disk, actions: seq<Action>): Disk {
    if actions == [] then d
    else After(hash, AfterAll(hash, d, actions[..|actions| - 1]), actions[|actions| - 1])
  }

  // ----- the event log -----

  /** Whole files in order, of which at most the last may be torn. */
  predicate FilesSound(files: seq<EventFile>) {
    forall i | 0 <= i < |files| ::
      || FileSound(files[i], i)
      || (i == |files| - 1 && files[i] == EventFile(i, files[i].named, Torn))
  }

  /** Sound files whose intended events, even one behind a torn file, are legal. */
  predicate LogSound(files: seq<EventFile>) {
    FilesSound(files) && Accepted(Named(files))
  }

  /** The events a reader can rely on: those of the whole files. */
  function Durable(files: seq<EventFile>): seq<JournalEvent> {
    if files != [] && files[|files| - 1].body.Torn? then Named(files[..|files| - 1]) else Named(files)
  }

  lemma NamedExtend(files: seq<EventFile>, file: EventFile)
    ensures Named(files + [file]) == Named(files) + [file.named]
  {
    assert (files + [file])[..|files|] == files;
  }

  lemma LoadGivesAll(files: seq<EventFile>)
    ensures Load(files).Some? ==> LogSound(files) && Load(files).value == Named(files) == Durable(files)
  {
  }

  lemma AddedFilesSound(files: seq<EventFile>, file: EventFile)
    requires forall i | 0 <= i < |files| :: FileSound(files[i], i)
    requires FileSound(file, |files|) || file == EventFile(|files|, file.named, Torn)
    ensures FilesSound(files + [file])
  {
    var longer := files + [file];
    forall i | 0 <= i < |longer|
      ensures FileSound(longer[i], i) || (i == |longer| - 1 && longer[i] == EventFile(i, longer[i].named, Torn))
    {
      if i < |files| { assert longer[i] == files[i] && FileSound(files[i], i); }
    }
  }

  lemma AddedSound(files: seq<EventFile>, file: EventFile)
    requires Load(files).Some? && Accepted(Named(files) + [file.named])
    requires FileSound(file, |files|) || file == EventFile(|files|, file.named, Torn)
    ensures LogSound(files + [file])
  {
    NamedExtend(files, file);
    AddedFilesSound(files, file);
  }

  /** The only two ways an append changes the directory. */
  lemma AppendSplits(d: Disk, kind: EventKind, fault: Fault)
    ensures var d' := Append(d, kind, fault).0;
            d' == d
            || (Load(d.files).Some? && Appendable(Named(d.files), kind)
                && exists whole :: d' == d.(files := d.files + [NewFile(Named(d.files), kind, whole)]))
  {
  }

  lemma AppendSound(d: Disk, kind: EventKind, fault: Fault)
    requires LogSound(d.files)
    ensures LogSound(Append(d, kind, fault).0.files)
  {
    AppendSplits(d, kind, fault);
    var d' := Append(d, kind, fault).0;
    if d' != d {
      var es := Named(d.files);
      var whole :| d' == d.(files := d.files + [NewFile(es, kind, whole)]);
      AddedSound(d.files, NewFile(es, kind, whole));
    }
  }

  /** A torn file, or any other damage, closes the journal: nothing is ever appended again. */
  lemma DamagedIsClosed(hash: seq<byte> -> Digest, d: Disk, a: Action)
    requires Load(d.files).None?
    ensures After(hash, d, a).files == d.files && After(hash, d, a).terminals == d.terminals
  {
    BindKeepsLog(d, a.request, a.fault);
    assert !BoundRead(d, a.request, a.fault).1.Done?;
  }

  lemma DecidesNoTerminal(s: Lifecycle, op: Operation)
    ensures Decide(s, op).Success? && Decide(s, op).value.Some? ==> !Decide(s, op).value.value.TerminalPublished?
  {
  }

  /** A record operation binds, and then appends nothing or one event that is not terminal. */
  lemma RecordSplits(d: Disk, request: RunRequest, op: Operation, fault: Fault) returns (kind: Option<EventKind>)
    ensures kind.Some? ==> !kind.value.TerminalPublished?
    ensures var d1, d' := Bind(d, request, fault).0, Perform(d, request, op, fault).0;
            kind.None? ==> d' == d || d' == d1
    ensures kind.Some? ==>
              Perform(d, request, op, fault).0 == Append(Bind(d, request, fault).0, kind.value, fault).0
  {
    kind := None;
    var (d1, read) := BoundRead(d, request, fault);
    if read.Done? && !(op.FinishEffect? && op.observation.effectId != op.finished.effectId) {
      var s := Replay(read.value).value;
      DecidesNoTerminal(s, op);
      var decision := Decide(s, op);
      if decision.Success? { kind := decision.value; }
    }
  }

  lemma BindKeepsLog(d: Disk, request: RunRequest, fault: Fault)
    ensures Bind(d, request, fault).0.files == d.files && Bind(d, request, fault).0.terminals == d.terminals
  {
  }

  // ----- the terminal record -----

  /**
   At most one terminal file, named by its digest when whole; a recorded terminal digest
   implies the whole file with that digest.
   */
  predicate TerminalsSound(hash: seq<byte> -> Digest, terminals: seq<TerminalFile>, recorded: Option<Digest>) {
    && |terminals| <= 1
    && (terminals != [] && terminals[0].body.WholeRecord? ==>
          hash(terminals[0].body.bytes) == terminals[0].nameDigest)
    && (recorded.Some? ==>
          terminals != [] && terminals[0].body.WholeRecord? && terminals[0].nameDigest == recorded.value)
  }

  /** The terminal digest of the intended events, even of one behind a torn file. */
  function IntendedTerminal(files: seq<EventFile>): Option<Digest>
    requires LogSound(files)
  {
    Replay(Named(files)).value.terminalDigest
  }

  predicate TerminalSound(hash: seq<byte> -> Digest, d: Disk) {
    LogSound(d.files) && TerminalsSound(hash, d.terminals, IntendedTerminal(d.files))
  }

  lemma AppendTerminalSound(hash: seq<byte> -> Digest, d: Disk, kind: EventKind, fault: Fault)
    requires TerminalSound(hash, d)
    requires kind.TerminalPublished? ==>
               d.terminals != [] && d.terminals[0].body.WholeRecord? && d.terminals[0].nameDigest == kind.recordDigest
    ensures TerminalSound(hash, Append(d, kind, fault).0)
  {
    AppendSplits(d, kind, fault);
    AppendSound(d, kind, fault);
    var d' := Append(d, kind, fault).0;
    if d' != d {
      var es := Named(d.files);
      var whole :| d' == d.(files := d.files + [NewFile(es, kind, whole)]);
      NamedExtend(d.files, NewFile(es, kind, whole));
      AppendableIsStep(es, kind);
      StepTerminal(Replay(es).value, kind);
    }
  }

  lemma StepTerminal(s: Lifecycle, kind: EventKind)
    requires s.terminalDigest.None? && StepKind(s, kind).Some?
    ensures StepKind(s, kind).value.terminalDigest ==
            if kind.TerminalPublished? then Some(kind.recordDigest) else None
  {
  }

  lemma RecordTerminalSound(hash: seq<byte> -> Digest, d: Disk, request: RunRequest, op: Operation, fault: Fault)
    requires TerminalSound(hash, d)
    ensures TerminalSound(hash, Perform(d, request, op, fault).0)
  {
    BindKeepsLog(d, request, fault);
    var kind := RecordSplits(d, request, op, fault);
    if kind.Some? { AppendTerminalSound(hash, Bind(d, request, fault).0, kind.value, fault); }
  }

  lemma FinishTerminalSound(hash: seq<byte> -> Digest, d: Disk, digest: Digest, fault: Fault)
    requires TerminalSound(hash, d)
    requires d.terminals != [] && d.terminals[0].body.WholeRecord? && d.terminals[0].nameDigest == digest
    ensures TerminalSound(hash, FinishPublish(d, digest, fault).0)
    ensures FinishPublish(d, digest, fault).0.terminals == d.terminals
  {
    hide Step, StepKind, Replay, TerminalSound;
    AppendTerminalSound(hash, d, TerminalPublished(digest), fault);
  }

  lemma FirstTerminalSound(hash: seq<byte> -> Digest, d: Disk, bytes: seq<byte>, fault: Fault)
    requires TerminalSound(hash, d) && d.terminals == []
    ensures TerminalSound(hash, PublishFirst(hash, d, bytes, fault).0)
  {
    FinishTerminalSound(hash, d.(terminals := [TerminalFile(hash(bytes), WholeRecord(bytes))]), hash(bytes), fault);
  }

  lemma AgainTerminalSound(hash: seq<byte> -> Digest, d: Disk, t: Terminal, bytes: seq<byte>, fault: Fault)
    requires TerminalSound(hash, d)
    requires TerminalRecord(hash, d.terminals, IntendedTerminal(d.files)) == Success(Some(t))
    ensures TerminalSound(hash, PublishAgain(hash, d, t, bytes, fault).0)
    ensures PublishAgain(hash, d, t, bytes, fault).0.terminals == d.terminals
  {
    FinishTerminalSound(hash, d, t.digest, fault);
  }

  lemma LoadedTerminalSound(hash: seq<byte> -> Digest, d: Disk, s: Lifecycle, bytes: seq<byte>, fault: Fault)
    requires TerminalSound(hash, d) && s.terminalDigest == IntendedTerminal(d.files)
    ensures TerminalSound(hash, PublishLoaded(hash, d, s, bytes, fault).0)
    ensures d.terminals != [] ==> PublishLoaded(hash, d, s, bytes, fault).0.terminals == d.terminals
  {
    match TerminalRecord(hash, d.terminals, s.terminalDigest)
    case Failure(_) =>
    case Success(None) => FirstTerminalSound(hash, d, bytes, fault);
    case Success(Some(t)) => AgainTerminalSound(hash, d, t, bytes, fault);
  }

  lemma PublishTerminalSound(hash: seq<byte> -> Digest, d: Disk, request: RunRequest, bytes: seq<byte>, fault: Fault)
    requires TerminalSound(hash, d)
    ensures TerminalSound(hash, Publish(hash, d, request, bytes, fault).0)
    ensures d.terminals != [] ==> Publish(hash, d, request, bytes, fault).0.terminals == d.terminals
  {
    BindKeepsLog(d, request, fault);
    var (d1, read) := BoundRead(d, request, fault);
    if read.Done? { LoadedTerminalSound(hash, d1, Replay(read.value).value, bytes, fault); }
  }

  /** Recovery leaves the bound disk, or publishes the retained bytes on it. */
  lemma RecoverShape(hash: seq<byte> -> Digest, d: Disk, request: RunRequest, fault: Fault)
    returns (bytes: Option<seq<byte>>)
    ensures var d1, d' := Bind(d, request, fault).0, Recover(hash, d, request, fault).0;
            d' == match bytes { case None => d1 case Some(b) => Publish(hash, d1, request, b, fault).0 }
  {
    var retained := Retained(hash, d, request, fault).1;
    bytes := if retained.Done? then retained.value else None;
  }

  lemma RecoverTerminalSound(hash: seq<byte> -> Digest, d: Disk, request: RunRequest, fault: Fault)
    requires TerminalSound(hash, d)
    ensures TerminalSound(hash, Recover(hash, d, request, fault).0)
    ensures d.terminals != [] ==> Recover(hash, d, request, fault).0.terminals == d.terminals
  {
    BindKeepsLog(d, request, fault);
    var bytes := RecoverShape(hash, d, request, fault);
    if bytes.Some? { PublishTerminalSound(hash, Bind(d, request, fault).0, request, bytes.value, fault); }
  }

  /**
   Every operation keeps the terminal record sound, and once a terminal file exists, whole or
   torn, no operation replaces, changes or adds one.
   */
  lemma AfterTerminalSound(hash: seq<byte> -> Digest, d: Disk, a: Action)
    requires TerminalSound(hash, d)
    ensures TerminalSound(hash, After(hash, d, a))
    ensures d.terminals != [] ==> After(hash, d, a).terminals == d.terminals
  {
    match a
    case Record(request, op, fault) =>
      RecordTerminalSound(hash, d, request, op, fault);
      RecordKeepsTerminals(d, request, op, fault);
    case PublishTerminal(request, bytes, fault) => PublishTerminalSound(hash, d, request, bytes, fault);
    case RecoverTerminal(request, fault) => RecoverTerminalSound(hash, d, request, fault);
  }

  lemma RecordKeepsTerminals(d: Disk, request: RunRequest, op: Operation, fault: Fault)
    ensures Perform(d, request, op, fault).0.terminals == d.terminals
  {
    BindKeepsLog(d, request, fault);
    var kind := RecordSplits(d, request, op, fault);
  }

  /** Every history of faulty operations keeps the log and the terminal record sound. */
  lemma {:induction false} HistorySound(hash: seq<byte> -> Digest, actions: seq<Action>)
    ensures TerminalSound(hash, AfterAll(hash, BLANK, actions))
  {
    if actions != [] {
      var n := |actions| - 1;
      HistorySound(hash, actions[..n]);
      AfterTerminalSound(hash, AfterAll(hash, BLANK, actions[..n]), actions[n]);
    }
  }

  /** A disk on which publication may proceed: bound, readable, verified, nothing published yet. */
  predicate ReadyToPublish(d: Disk, request: RunRequest) {
    && d.identity == Some(BoundTo(request))
    && Load(d.files).Some?
    && var s := Replay(Load(d.files).value).value;
       ReadyForEffects(s.provider) && VerificationComplete(s) && s.terminalDigest.None?
  }

  /** Publication is finished: one whole file, named by its digest, and the event that says so. */
  predicate Published(hash: seq<byte> -> Digest, d: Disk, request: RunRequest, bytes: seq<byte>) {
    && d.identity == Some(BoundTo(request))
    && d.terminals == [TerminalFile(hash(bytes), WholeRecord(bytes))]
    && Load(d.files).Some?
    && var s := Replay(Load(d.files).value).value;
       ReadyForEffects(s.provider) && VerificationComplete(s) && s.terminalDigest == Some(hash(bytes))
  }

  /** An appended whole file is read back behind the others. */
  lemma LoadAppended(files: seq<EventFile>, kind: EventKind)
    requires Load(files).Some? && Appendable(Load(files).value, kind)
    ensures var es := Load(files).value;
            Load(files + [NewFile(es, kind, true)]) == Some(es + [NextEvent(es, kind)])
  {
    var es := Load(files).value;
    var longer := files + [NewFile(es, kind, true)];
    NamedExtend(files, NewFile(es, kind, true));
    forall i | 0 <= i < |longer|
      ensures FileSound(longer[i], i)
    {
      if i < |files| { assert longer[i] == files[i] && FileSound(files[i], i); }
    }
  }

  lemma AppendWhole(d: Disk, kind: EventKind, fault: Fault)
    requires Load(d.files).Some? && Appendable(Load(d.files).value, kind)
    requires fault.AtEvent? ==> fault.extent.All?
    ensures var es := Load(d.files).value;
            Append(d, kind, fault)
            == (d.(files := d.files + [NewFile(es, kind, true)]),
                if fault.AtEvent? then Stop(fault.crash) else Done(()))
  {
  }

  /** With a complete verification the terminal event is a legal step, and changes nothing else. */
  lemma TerminalStep(es: seq<JournalEvent>, digest: Digest)
    requires Accepted(es) && VerificationComplete(Replay(es).value) && Replay(es).value.terminalDigest.None?
    ensures Appendable(es, TerminalPublished(digest))
    ensures Replay(es + [NextEvent(es, TerminalPublished(digest))])
            == Some(Replay(es).value.(terminalDigest := Some(digest)))
  {
    AppendableIsStep(es, TerminalPublished(digest));
  }

  lemma TerminalAppendPublishes(hash: seq<byte> -> Digest, d: Disk, request: RunRequest, bytes: seq<byte>, fault: Fault)
    requires ReadyToPublish(d, request) && d.terminals == [TerminalFile(hash(bytes), WholeRecord(bytes))]
    requires fault.AtEvent? ==> fault.extent.All?
    ensures Published(hash, Append(d, TerminalPublished(hash(bytes)), fault).0, request, bytes)
    ensures Append(d, TerminalPublished(hash(bytes)), fault).1 ==
            if fault.AtEvent? then Stop(fault.crash) else Done(())
  {
    var es, kind := Load(d.files).value, TerminalPublished(hash(bytes));
    TerminalStep(es, hash(bytes));
    LoadAppended(d.files, kind);
    AppendWhole(d, kind, fault);
  }

  /** Without a failure, publishing publishes exactly the given bytes. */
  lemma HealthyPublish(hash: seq<byte> -> Digest, d: Disk, request: RunRequest, bytes: seq<byte>)
    requires ReadyToPublish(d, request)
    requires d.terminals == [] || d.terminals == [TerminalFile(hash(bytes), WholeRecord(bytes))]
    ensures var (d', r) := Publish(hash, d, request, bytes, Healthy);
            r == Done(hash(bytes)) && Published(hash, d', request, bytes)
  {
    hide Step, Replay, Load;
    TerminalAppendPublishes(
      hash, d.(terminals := [TerminalFile(hash(bytes), WholeRecord(bytes))]), request, bytes, Healthy);
  }

  /** After publication the same bytes are a no-op and different bytes are refused, whatever else fails. */
  lemma PublishedIsFinal(
    hash: seq<byte> -> Digest, d: Disk, request: RunRequest, bytes: seq<byte>, again: seq<byte>, fault: Fault)
    requires Published(hash, d, request, bytes)
    ensures Publish(hash, d, request, again, fault).0 == d
    ensures !fault.Unreadable? ==>
              Publish(hash, d, request, again, fault).1 ==
              if again == bytes then Done(hash(bytes)) else Refused(EventDigestMismatch)
    ensures Recover(hash, d, request, Healthy) == (d, Done(Some(bytes)))
  {
  }

  /** A whole file that has no event yet admits only its own bytes too. */
  lemma PublishedFileIsFinal(
    hash: seq<byte> -> Digest, d: Disk, request: RunRequest, bytes: seq<byte>, again: seq<byte>, fault: Fault)
    requires ReadyToPublish(d, request) && d.terminals == [TerminalFile(hash(bytes), WholeRecord(bytes))]
    requires again != bytes
    ensures Publish(hash, d, request, again, fault) ==
            (d, if fault.Unreadable? then Stop(fault.crash) else Refused(EventDigestMismatch))
  {
    hide Replay;
  }

  /** While a capture is under way no terminal record is published, returned or recovered. */
  lemma CaptureRefusesTerminals(
    hash: seq<byte> -> Digest, d: Disk, request: RunRequest, bytes: seq<byte>, fault: Fault)
    requires Load(d.files).Some? && 0 < Replay(Load(d.files).value).value.providerStep < 6
    ensures Publish(hash, d, request, bytes, fault).0 == Bind(d, request, fault).0
    ensures Retained(hash, d, request, fault).0 == Bind(d, request, fault).0
    ensures Recover(hash, d, request, fault).0 == Bind(d, request, fault).0
    ensures Bind(d, request, fault).0.files == d.files && Bind(d, request, fault).0.terminals == d.terminals
    ensures !Publish(hash, d, request, bytes, fault).1.Done?
    ensures !Retained(hash, d, request, fault).1.Done? && !Recover(hash, d, request, fault).1.Done?
  {
    hide Step, Replay, Bind, Append;
    BindKeepsLog(d, request, fault);
    AcceptedCoherent(Load(d.files).value);
  }

  /** The disk left by a cut-off publication: untouched, a torn file, a whole file, a torn event, or complete. */
  function Leftover(hash: seq<byte> -> Digest, d: Disk, bytes: seq<byte>, fault: Fault): Disk {
    var created := d.(terminals := [TerminalFile(hash(bytes), WholeRecord(bytes))]);
    match fault
    case Unreadable(_) => d
    case AtTerminal(Nothing, _) => d
    case AtTerminal(Part, _) => d.(terminals := [TerminalFile(hash(bytes), TornRecord)])
    case AtTerminal(All, _) => created
    case _ => Append(created, TerminalPublished(hash(bytes)), fault).0
  }

  lemma PublishLeaves(hash: seq<byte> -> Digest, d: Disk, request: RunRequest, bytes: seq<byte>, fault: Fault)
    requires ReadyToPublish(d, request) && d.terminals == []
    ensures Publish(hash, d, request, bytes, fault).0 == Leftover(hash, d, bytes, fault)
  {
    hide Step, Replay, Load;
  }

  /**
   Publication survives an interruption anywhere. If no file was created nothing has happened;
   if a whole file was created, recovery finishes with exactly its bytes; a torn file or a torn
   event is refused and left alone.
   */
  lemma InterruptedPublishRecovers(
    hash: seq<byte> -> Digest, d: Disk, request: RunRequest, bytes: seq<byte>, fault: Fault)
    requires ReadyToPublish(d, request) && d.terminals == []
    ensures var d1 := Publish(hash, d, request, bytes, fault).0;
            var (d2, r) := Recover(hash, d1, request, Healthy);
            if fault.Unreadable? || (fault.AtTerminal? && fault.extent.Nothing?) then
              d1 == d2 == d && r == Done(None)
            else if (fault.AtTerminal? || fault.AtEvent?) && fault.extent.Part? then
              d2 == d1 && r.Refused?
            else Published(hash, d2, request, bytes) && r == Done(Some(bytes))
  {
    hide Step, Replay, Accepted, Load;
    PublishLeaves(hash, d, request, bytes, fault);
    var created := d.(terminals := [TerminalFile(hash(bytes), WholeRecord(bytes))]);
    var d1 := Leftover(hash, d, bytes, fault);
    if d1 == created {
      RecoverFinishes(hash, created, request, bytes);
    } else if fault.AtEvent? && fault.extent.Part? {
      AppendTorn(created, request, hash(bytes), fault);
      TornTailUnreadable(d.files, NewFile(Load(d.files).value, TerminalPublished(hash(bytes)), false));
    } else if !fault.Unreadable? && !fault.AtTerminal? && !(fault.AtEvent? && fault.extent.Nothing?) {
      TerminalAppendPublishes(hash, created, request, bytes, fault);
      PublishedIsFinal(hash, d1, request, bytes, bytes, Healthy);
    }
  }

  lemma TornTailUnreadable(files: seq<EventFile>, file: EventFile)
    requires file.body.Torn?
    ensures Load(files + [file]).None?
  {
    assert (files + [file])[|files|] == file;
  }

  lemma AppendTorn(d: Disk, request: RunRequest, digest: Digest, fault: Fault)
    requires ReadyToPublish(d, request) && fault.AtEvent? && fault.extent.Part?
    ensures var es := Load(d.files).value;
            Append(d, TerminalPublished(digest), fault).0 ==
            d.(files := d.files + [NewFile(es, TerminalPublished(digest), false)])
  {
    var es := Load(d.files).value;
    AcceptedCoherent(es);
    AppendableIsStep(es, TerminalPublished(digest));
  }

  /** A whole terminal file without its event is completed by recovery, with the same bytes. */
  lemma RecoverFinishes(hash: seq<byte> -> Digest, d: Disk, request: RunRequest, bytes: seq<byte>)
    requires ReadyToPublish(d, request) && d.terminals == [TerminalFile(hash(bytes), WholeRecord(bytes))]
    ensures var (d', r) := Recover(hash, d, request, Healthy);
            Published(hash, d', request, bytes) && r == Done(Some(bytes))
  {
    hide Replay, Accepted, Load, Append, Publish, Published;
    HealthyPublish(hash, d, request, bytes);
  }

  // ----- an undisturbed capture -----

  /** Operations in order without a fault, up to the first that is refused. */
  function RecordAll(d: Disk, request: RunRequest, ops: seq<Operation>): (Disk, Outcome<()>)
    decreases |ops|
  {
    if ops == [] then (d, Done(()))
    else
      var (d', r) := Perform(d, request, ops[0], Healthy);
      if r.Done? then RecordAll(d', request, ops[1..]) else (d', r)
  }

  /** A disk that this request may write, whose events rebuild this state. */
  predicate Rebuilds(d: Disk, request: RunRequest, s: Lifecycle) {
    && (d.identity.None? || d.identity == Some(BoundTo(request)))
    && Load(d.files).Some? && Replay(Load(d.files).value) == Some(s)
  }

  /** Without a fault a recorder appends exactly the step that it decides on. */
  lemma HealthyRecord(d: Disk, request: RunRequest, op: Operation, s: Lifecycle, kind: EventKind)
    requires Rebuilds(d, request, s) && s.terminalDigest.None? && !op.FinishEffect?
    requires Decide(s, op) == Success(Some(kind)) && StepKind(s, kind).Some?
    ensures var (d', r) := Perform(d, request, op, Healthy);
            r == Done(()) && Rebuilds(d', request, StepKind(s, kind).value)
  {
    hide Replay, Step, StepKind, Decide;
    var es := Load(d.files).value;
    AppendableIsStep(es, kind);
    LoadAppended(d.files, kind);
  }

  lemma RecordFirst(d: Disk, request: RunRequest, ops: seq<Operation>, s: Lifecycle, kind: EventKind)
    returns (d': Disk)
    requires ops != [] && Rebuilds(d, request, s) && s.terminalDigest.None? && !ops[0].FinishEffect?
    requires Decide(s, ops[0]) == Success(Some(kind)) && StepKind(s, kind).Some?
    ensures Rebuilds(d', request, StepKind(s, kind).value)
    ensures RecordAll(d, request, ops) == RecordAll(d', request, ops[1..])
  {
    hide Replay, Step, StepKind, Decide, Perform, Rebuilds;
    HealthyRecord(d, request, ops[0], s, kind);
    d' := Perform(d, request, ops[0], Healthy).0;
  }

  /** What the live worker records during a turn, and what the engine records when it has the turn. */
  function CaptureOf(p: ProviderState): seq<Operation>
    requires CaptureWhole(p)
  {
    [ProviderIntent(p.preparedRunDigest.value, p.executionAuthorityDigest.value),
     ProcessStarted(p.invocationDigest.value), OutputRetained(p.rawCaptureDigest.value),
     CapturePublished(p.captureIndexDigest.value), CaptureVerified(p.captureIndexDigest.value),
     TurnNormalized(p.adapterTurnDigest.value)]
  }

  predicate CaptureWhole(p: ProviderState) {
    && p.preparedRunDigest.Some? && p.executionAuthorityDigest.Some? && p.processStarted
    && p.invocationDigest.Some? && p.rawCaptureDigest.Some? && p.captureIndexDigest.Some?
    && p.captureVerified && p.adapterTurnDigest.Some?
  }

  /** The state after the first `k` links of a capture. */
  function Links(p: ProviderState, k: nat): Lifecycle {
    INITIAL.(providerStep := k, provider := ProviderState(
      if k > 0 then p.preparedRunDigest else None, if k > 0 then p.executionAuthorityDigest else None, k > 1,
      if k > 1 then p.invocationDigest else None, if k > 2 then p.rawCaptureDigest else None,
      if k > 3 then p.captureIndexDigest else None, k > 4, if k > 5 then p.adapterTurnDigest else None))
  }

  lemma LinkDecided(p: ProviderState, k: nat)
    requires CaptureWhole(p) && k < 6
    ensures var op := CaptureOf(p)[k];
            && !op.FinishEffect? && Decide(Links(p, k), op).Success? && Decide(Links(p, k), op).value.Some?
            && StepKind(Links(p, k), Decide(Links(p, k), op).value.value) == Some(Links(p, k + 1))
  {
  }

  lemma {:induction false} CaptureFrom(d: Disk, request: RunRequest, p: ProviderState, k: nat)
    requires CaptureWhole(p) && k <= 6 && Rebuilds(d, request, Links(p, k))
    ensures var (d', r) := RecordAll(d, request, CaptureOf(p)[k..]);
            r == Done(()) && Rebuilds(d', request, Links(p, 6))
    decreases 6 - k
  {
    hide Decide, StepKind, Rebuilds, Perform;
    if k < 6 {
      var rest := CaptureOf(p)[k..];
      assert rest[0] == CaptureOf(p)[k] && rest[1..] == CaptureOf(p)[k + 1..];
      LinkDecided(p, k);
      var d' := RecordFirst(d, request, rest, Links(p, k), Decide(Links(p, k), rest[0]).value.value);
      CaptureFrom(d', request, p, k + 1);
    }
  }

  /** On a blank journal an undisturbed capture succeeds, and the journal then holds exactly it. */
  lemma CaptureCompletes(request: RunRequest, p: ProviderState)
    requires CaptureWhole(p)
    ensures var (d, r) := RecordAll(BLANK, request, CaptureOf(p));
            r == Done(()) && Rebuilds(d, request, INITIAL.(provider := p, providerStep := 6))
  {
    assert Rebuilds(BLANK, request, Links(p, 0));
    CaptureFrom(BLANK, request, p, 0);
    assert CaptureOf(p)[0..] == CaptureOf(p) && Links(p, 6).provider == p;
  }

  // ----- every history of publications and recoveries -----

  /** A publication of this record for this request, a recovery, or a call that is bound to another request. */
  predicate Publishes(a: Action, request: RunRequest, bytes: seq<byte>) {
    match a
    case Record(other, _, _) => other != request
    case PublishTerminal(other, record, _) => other != request || record == bytes
    case RecoverTerminal(_, _) => true
  }

  /** The call leaves a torn file. */
  predicate Tears(fault: Fault) {
    (fault.AtTerminal? || fault.AtEvent?) && fault.extent.Part?
  }

  function FileOf(hash: seq<byte> -> Digest, bytes: seq<byte>): TerminalFile {
    TerminalFile(hash(bytes), WholeRecord(bytes))
  }

  /** Nothing published yet, the file only, or all of it. */
  predicate Underway(hash: seq<byte> -> Digest, d: Disk, request: RunRequest, bytes: seq<byte>) {
    || (ReadyToPublish(d, request) && (d.terminals == [] || d.terminals == [FileOf(hash, bytes)]))
    || Published(hash, d, request, bytes)
  }

  /** A torn file or an unreadable log: nothing more happens to this disk. */
  predicate Spoiled(hash: seq<byte> -> Digest, d: Disk, request: RunRequest, bytes: seq<byte>) {
    && d.identity == Some(BoundTo(request))
    && (d.terminals == [TerminalFile(hash(bytes), TornRecord)] || Load(d.files).None?)
  }

  /** A call for another request changes nothing. */
  lemma OtherRequest(hash: seq<byte> -> Digest, d: Disk, a: Action, request: RunRequest)
    requires d.identity == Some(BoundTo(request)) && a.request != request
    ensures After(hash, d, a) == d
  {
    hide Step, Replay, Load;
  }

  /** A torn record stays: every publication, of whatever bytes, and every recovery is refused. */
  lemma SpoiledStays(
    hash: seq<byte> -> Digest, d: Disk, request: RunRequest, bytes: seq<byte>, again: seq<byte>, fault: Fault)
    requires Spoiled(hash, d, request, bytes)
    ensures Publish(hash, d, request, again, fault).0 == d && !Publish(hash, d, request, again, fault).1.Done?
    ensures Recover(hash, d, request, fault).0 == d && !Recover(hash, d, request, fault).1.Done?
    ensures Spoiled(hash, d, request, bytes) && Recover(hash, d, request, Healthy).1.Refused?
  {
    hide Step, Replay;
  }

  lemma TornEventSpoils(hash: seq<byte> -> Digest, d: Disk, request: RunRequest, bytes: seq<byte>, fault: Fault)
    requires ReadyToPublish(d, request) && fault.AtEvent? && fault.extent.Part?
    ensures Spoiled(hash, Append(d, TerminalPublished(hash(bytes)), fault).0, request, bytes)
  {
    AppendTorn(d, request, hash(bytes), fault);
    TornTailUnreadable(d.files, NewFile(Load(d.files).value, TerminalPublished(hash(bytes)), false));
  }

  /** Publishing again behind the file finishes, does nothing, or tears the event. */
  lemma FiledPublish(hash: seq<byte> -> Digest, d: Disk, request: RunRequest, bytes: seq<byte>, fault: Fault)
    requires ReadyToPublish(d, request) && d.terminals == [FileOf(hash, bytes)]
    ensures var d' := Publish(hash, d, request, bytes, fault).0;
            if Tears(fault) && fault.AtEvent? then Spoiled(hash, d', request, bytes)
            else Underway(hash, d', request, bytes) && d'.terminals == d.terminals
  {
    hide Step, Replay, Load;
    if fault.AtEvent? && fault.extent.Part? {
      TornEventSpoils(hash, d, request, bytes, fault);
    } else if !fault.Unreadable? && !(fault.AtEvent? && fault.extent.Nothing?) {
      TerminalAppendPublishes(hash, d, request, bytes, fault);
    }
  }

  lemma FirstPublish(hash: seq<byte> -> Digest, d: Disk, request: RunRequest, bytes: seq<byte>, fault: Fault)
    requires ReadyToPublish(d, request) && d.terminals == []
    ensures var d' := Publish(hash, d, request, bytes, fault).0;
            if Tears(fault) then Spoiled(hash, d', request, bytes)
            else Underway(hash, d', request, bytes) && (d'.terminals == [] ==> d' == d)
  {
    hide Step, Replay, Load;
    PublishLeaves(hash, d, request, bytes, fault);
    var created := d.(terminals := [FileOf(hash, bytes)]);
    if fault.AtEvent? && fault.extent.Part? {
      TornEventSpoils(hash, created, request, bytes, fault);
    } else if !fault.Unreadable? && !fault.AtTerminal? && !(fault.AtEvent? && fault.extent.Nothing?) {
      TerminalAppendPublishes(hash, created, request, bytes, fault);
    }
  }

  /** Recovery publishes the file's bytes again, or leaves the disk alone. */
  lemma RecoverPublishes(hash: seq<byte> -> Digest, d: Disk, request: RunRequest, bytes: seq<byte>, fault: Fault)
    requires Underway(hash, d, request, bytes)
    ensures var d' := Recover(hash, d, request, fault).0;
            d' == d || (d.terminals != [] && d' == Publish(hash, d, request, bytes, fault).0)
  {
    hide Step, Replay, Load, Publish;
  }

  lemma PublishUnderway(hash: seq<byte> -> Digest, d: Disk, request: RunRequest, bytes: seq<byte>, fault: Fault)
    requires Underway(hash, d, request, bytes)
    ensures Moved(hash, d, Publish(hash, d, request, bytes, fault).0, request, bytes, fault)
  {
    hide Step, Replay, Load, Publish, Published, ReadyToPublish, Spoiled;
    if Published(hash, d, request, bytes) {
      PublishedIsFinal(hash, d, request, bytes, bytes, fault);
    } else if d.terminals == [] {
      FirstPublish(hash, d, request, bytes, fault);
    } else {
      FiledPublish(hash, d, request, bytes, fault);
    }
  }

  /** What one call does to a publication: it tears a file, or moves on without giving anything back. */
  predicate Moved(
    hash: seq<byte> -> Digest, d: Disk, d': Disk, request: RunRequest, bytes: seq<byte>, fault: Fault)
  {
    || (Tears(fault) && Spoiled(hash, d', request, bytes))
    || (Underway(hash, d', request, bytes) && (d'.terminals == [] ==> d' == d))
  }

  lemma ActionMoves(hash: seq<byte> -> Digest, d: Disk, a: Action, request: RunRequest, bytes: seq<byte>)
    requires Underway(hash, d, request, bytes) && Publishes(a, request, bytes)
    ensures Moved(hash, d, After(hash, d, a), request, bytes, a.fault)
  {
    if a.request != request {
      OtherRequest(hash, d, a, request);
    } else {
      hide Step, Replay, Load, Publish, Recover, Published, ReadyToPublish, Spoiled;
      PublishUnderway(hash, d, request, bytes, a.fault);
      if a.RecoverTerminal? { RecoverPublishes(hash, d, request, bytes, a.fault); }
    }
  }

  lemma SpoiledAction(hash: seq<byte> -> Digest, d: Disk, a: Action, request: RunRequest, bytes: seq<byte>)
    requires Spoiled(hash, d, request, bytes) && Publishes(a, request, bytes)
    ensures After(hash, d, a) == d
  {
    hide Step, Replay, Load, Publish, Recover;
    if a.request != request {
      OtherRequest(hash, d, a, request);
    } else {
      SpoiledStays(hash, d, request, bytes, bytes, a.fault);
    }
  }

  /** A history of publications and recoveries tears a file for good, or only ever moves on. */
  lemma {:induction false} PublicationMoves(
    hash: seq<byte> -> Digest, d: Disk, request: RunRequest, bytes: seq<byte>, actions: seq<Action>)
    requires ReadyToPublish(d, request) && d.terminals == []
    requires forall a | a in actions :: Publishes(a, request, bytes)
    ensures var d' := AfterAll(hash, d, actions);
            || (Spoiled(hash, d', request, bytes) && exists a | a in actions :: Tears(a.fault))
            || (Underway(hash, d', request, bytes) && (d'.terminals == [] ==> d' == d))
  {
    if actions != [] {
      hide ReadyToPublish, Spoiled, Underway, Publishes, Tears, After;
      var n := |actions| - 1;
      var d1, last := AfterAll(hash, d, actions[..n]), actions[n];
      assert last in actions;
      PublicationMoves(hash, d, request, bytes, actions[..n]);
      if Underway(hash, d1, request, bytes) {
        ActionMoves(hash, d1, last, request, bytes);
      } else {
        SpoiledAction(hash, d1, last, request, bytes);
      }
    }
  }

  /**
   Publication through any history of interruptions: publications of these bytes and recoveries, each cut
   off anywhere, recoveries included. A healthy recovery afterwards finishes with exactly these bytes once
   a whole file exists and does nothing if none does; only a torn file or event, which some call must have
   left, is refused, and then for good.
   */
  lemma InterruptedHistoryRecovers(
    hash: seq<byte> -> Digest, d: Disk, request: RunRequest, bytes: seq<byte>, actions: seq<Action>)
    requires ReadyToPublish(d, request) && d.terminals == []
    requires forall a | a in actions :: Publishes(a, request, bytes)
    ensures var d1 := AfterAll(hash, d, actions);
            var (d2, r) := Recover(hash, d1, request, Healthy);
            if Spoiled(hash, d1, request, bytes) then
              d2 == d1 && r.Refused? && exists a | a in actions :: Tears(a.fault)
            else if d1.terminals == [] then d1 == d2 == d && r == Done(None)
            else Published(hash, d2, request, bytes) && r == Done(Some(bytes))
  {
    hide Step, Replay;
    PublicationMoves(hash, d, request, bytes, actions);
    var d1 := AfterAll(hash, d, actions);
    if Spoiled(hash, d1, request, bytes) {
      SpoiledStays(hash, d1, request, bytes, bytes, Healthy);
    } else if d1.terminals == [] {
    } else if Published(hash, d1, request, bytes) {
      PublishedIsFinal(hash, d1, request, bytes, bytes, Healthy);
    } else {
      RecoverFinishes(hash, d1, request, bytes);
    }
  }

  // ----- what a longer journal cannot change -----

  /** An effect keeps its digest, a completed one its observation, and a begun verification stays begun. */
  predicate StateKept(s: Lifecycle, s': Lifecycle) {
    && (s.verificationSeen ==> s'.verificationSeen)
    && (forall id | id in s.effects ::
          && id in s'.effects && s'.effects[id].digest == s.effects[id].digest
          && (s.effects[id].completion.Some? ==> s'.effects[id].completion == s.effects[id].completion))
  }

  lemma StepKeepsState(s: Lifecycle, kind: EventKind)
    requires StepKind(s, kind).Some?
    ensures StateKept(s, StepKind(s, kind).value)
  {
  }

  lemma {:induction false} ExtensionKeepsState(es: seq<JournalEvent>, n: nat)
    requires Accepted(es) && n <= |es|
    ensures Accepted(es[..n]) && StateKept(Replay(es[..n]).value, Replay(es).value)
    decreases |es| - n
  {
    PrefixAccepted(es, n);
    if n < |es| {
      ExtensionKeepsState(es, n + 1);
      ReplayNext(es, n);
      StepKeepsState(Replay(es[..n]).value, es[n].kind);
      StateKeptChain(Replay(es[..n]).value, Replay(es[..n + 1]).value, Replay(es).value);
    } else {
      assert es[..n] == es;
    }
  }

  lemma StateKeptChain(s: Lifecycle, t: Lifecycle, u: Lifecycle)
    requires StateKept(s, t) && StateKept(t, u)
    ensures StateKept(s, u)
  {
  }

  /** Durable events are never lost, reordered or rewritten by a later operation. */
  lemma DurableGrows(hash: seq<byte> -> Digest, d: Disk, a: Action)
    requires LogSound(d.files)
    ensures LogSound(After(hash, d, a).files)
    ensures Durable(d.files) <= Durable(After(hash, d, a).files)
  {
    if Load(d.files).None? {
      DamagedIsClosed(hash, d, a);
    } else {
      var kind := AfterSplits(hash, d, a);
      if kind.Some? {
        AppendDurable(d, kind.value, a.fault);
      }
    }
  }

  /** Every operation changes the event directory by at most one append. */
  lemma AfterSplits(hash: seq<byte> -> Digest, d: Disk, a: Action) returns (kind: Option<EventKind>)
    ensures kind.None? ==> After(hash, d, a).files == d.files
    ensures kind.Some? ==> After(hash, d, a).files == Append(d, kind.value, a.fault).0.files
  {
    hide Step, Replay, Load, Bind, Perform, Publish, Recover;
    BindKeepsLog(d, a.request, a.fault);
    match a
    case Record(request, op, fault) => kind := RecordSplits(d, request, op, fault);
    case PublishTerminal(request, bytes, fault) => kind := PublishSplits(hash, d, request, bytes, fault);
    case RecoverTerminal(request, fault) =>
      var bytes := RecoverShape(hash, d, request, fault);
      kind := None;
      if bytes.Some? { kind := PublishSplits(hash, Bind(d, request, fault).0, request, bytes.value, fault); }
  }

  lemma LoadedSplits(hash: seq<byte> -> Digest, d: Disk, s: Lifecycle, bytes: seq<byte>, fault: Fault)
    returns (kind: Option<EventKind>)
    ensures kind.None? ==> PublishLoaded(hash, d, s, bytes, fault).0.files == d.files
    ensures kind.Some? ==> PublishLoaded(hash, d, s, bytes, fault).0.files == Append(d, kind.value, fault).0.files
  {
    hide StepKind, Replay, Load, TerminalRecord;
    kind := None;
    if ReadyForEffects(s.provider) && VerificationComplete(s) {
      match TerminalRecord(hash, d.terminals, s.terminalDigest)
      case Failure(_) =>
      case Success(None) => if !fault.AtTerminal? { kind := Some(TerminalPublished(hash(bytes))); }
      case Success(Some(t)) =>
        if t.digest == hash(bytes) && t.bytes == bytes && !t.recorded { kind := Some(TerminalPublished(t.digest)); }
    }
  }

  lemma PublishSplits(hash: seq<byte> -> Digest, d: Disk, request: RunRequest, bytes: seq<byte>, fault: Fault)
    returns (kind: Option<EventKind>)
    ensures kind.None? ==> Publish(hash, d, request, bytes, fault).0.files == d.files
    ensures kind.Some? ==> Publish(hash, d, request, bytes, fault).0.files == Append(d, kind.value, fault).0.files
  {
    BindKeepsLog(d, request, fault);
    var (d1, read) := BoundRead(d, request, fault);
    kind := None;
    if read.Done? { kind := LoadedSplits(hash, d1, Replay(read.value).value, bytes, fault); }
  }

  lemma AppendDurable(d: Disk, kind: EventKind, fault: Fault)
    requires LogSound(d.files)
    ensures LogSound(Append(d, kind, fault).0.files)
    ensures Durable(d.files) <= Durable(Append(d, kind, fault).0.files)
  {
    hide Step, Replay;
    AppendSplits(d, kind, fault);
    AppendSound(d, kind, fault);
    var d' := Append(d, kind, fault).0;
    if d' != d {
      var es := Named(d.files);
      var whole :| d' == d.(files := d.files + [NewFile(es, kind, whole)]);
      LoadGivesAll(d.files);
      NamedExtend(d.files, NewFile(es, kind, whole));
      assert d'.files[..|d'.files| - 1] == d.files;
    }
  }

  lemma DurableAccepted(files: seq<EventFile>)
    requires LogSound(files)
    ensures Accepted(Durable(files))
  {
    if files != [] && files[|files| - 1].body.Torn? {
      PrefixAccepted(Named(files), |files| - 1);
    }
  }

  lemma {:induction false} HistoryGrows(hash: seq<byte> -> Digest, d: Disk, actions: seq<Action>)
    requires LogSound(d.files)
    ensures LogSound(AfterAll(hash, d, actions).files)
    ensures Durable(d.files) <= Durable(AfterAll(hash, d, actions).files)
  {
    if actions != [] {
      var n := |actions| - 1;
      HistoryGrows(hash, d, actions[..n]);
      DurableGrows(hash, AfterAll(hash, d, actions[..n]), actions[n]);
    }
  }

  lemma PrefixKeepsState(es: seq<JournalEvent>, es': seq<JournalEvent>)
    requires es <= es' && Accepted(es')
    ensures Accepted(es) && StateKept(Replay(es).value, Replay(es').value)
  {
    ExtensionKeepsState(es', |es|);
    assert es'[..|es|] == es;
  }

  /** Whatever happens to a journal later, an effect's recorded observation stays what it was. */
  lemma ObservationsPermanent(hash: seq<byte> -> Digest, d: Disk, actions: seq<Action>, id: string)
    requires LogSound(d.files)
    requires var s := Replay(Durable(d.files)); s.Some? && id in s.value.effects
    ensures var s, s' := Replay(Durable(d.files)).value, Replay(Durable(AfterAll(hash, d, actions).files));
            && s'.Some? && id in s'.value.effects
            && s'.value.effects[id].digest == s.effects[id].digest
            && (s.effects[id].completion.Some? ==> s'.value.effects[id].completion == s.effects[id].completion)
  {
    HistoryGrows(hash, d, actions);
    var es, es' := Durable(d.files), Durable(AfterAll(hash, d, actions).files);
    DurableAccepted(AfterAll(hash, d, actions).files);
    PrefixKeepsState(es, es');
  }
}
