/**
 Publication of a capture index under two names: staged as an incomplete file, hard-linked to
 its final name, then unlinked from the incomplete one
 (crates/ao-next-core/src/capture.rs, the Unix steps).

 Changes to directory entries are ordered but become durable only when the directory is synced:
 a crash falls back to some earlier point since the last sync. File bytes that were synced stay;
 bytes that were not may come back as anything.
 */
module Capture {
  import opened Words
  import opened Wrappers
  import opened Journal

  datatype CaptureError = Io | Oversized | Contradictory | Incomplete

  datatype Publication = Published(digest: Digest) | Repaired(digest: Digest)

  datatype File = File(bytes: seq<byte>, synced: bool)

  /** The two directory entries and the files behind them. */
  datatype Names = Names(final: Option<File>, incomplete: Option<File>)

  /** The states of the directory since its last sync, the current one last. */
  type Views = views: seq<Names> | views != [] witness [Names(None, None)]

  function Current(views: Views): Names {
    views[|views| - 1]
  }

  function Change(views: Views, names: Names): Views {
    views + [names]
  }

  function Sync(views: Views): Views {
    [Current(views)]
  }

  /** After a crash an unsynced file holds `lost`, and what it holds is on the disk. */
  function Settle(file: Option<File>, lost: seq<byte>): Option<File> {
    if file.Some? && !file.value.synced then Some(File(lost, true)) else file
  }

  /** A crash keeps some prefix of the unsynced changes, and of unsynced files anything. */
  function Crash(views: Views, kept: nat, lost: seq<byte>): Views {
    var names := if kept < |views| then views[kept] else Current(views);
    [Names(Settle(names.final, lost), Settle(names.incomplete, lost))]
  }

  /** Where an operation is cut off: after so many completed steps, by an error or a crash. */
  datatype Fault = Healthy | CutAfter(steps: nat)

  predicate Reaches(fault: Fault, step: nat) {
    fault.Healthy? || step <= fault.steps
  }

  /** `publish_final`: link, sync, remove, sync. */
  function PublishFinal(views: Views, fault: Fault): (Views, bool)
    requires Current(views).incomplete.Some?
  {
    var file := Current(views).incomplete;
    if !Reaches(fault, 1) then (views, false)
    else
      var linked := Change(views, Names(file, file));
      if !Reaches(fault, 2) then (linked, false)
      else
        var synced := Sync(linked);
        if !Reaches(fault, 3) then (synced, false)
        else
          var removed := Change(synced, Names(file, None));
          if !Reaches(fault, 4) then (removed, false) else (Sync(removed), true)
  }

  /** `remove_incomplete_and_sync`. */
  function RemoveIncomplete(views: Views, fault: Fault): (Views, bool) {
    if !Reaches(fault, 1) then (views, false)
    else
      var removed := Change(views, Current(views).(incomplete := None));
      if !Reaches(fault, 2) then (removed, false) else (Sync(removed), true)
  }

  /** `stage_incomplete`: create the file, write the bytes, sync the file. A cut write leaves any bytes. */
  function Stage(
    hash: seq<byte> -> Digest, limit: nat, views: Views, bytes: seq<byte>, partial: seq<byte>, fault: Fault)
    : (Views, Result<Digest, CaptureError>)
  {
    if |bytes| > limit then (views, Failure(Oversized))
    else if Current(views).final.Some? || Current(views).incomplete.Some? then (views, Failure(Io))
    else if !Reaches(fault, 1) then (views, Failure(Io))
    else if !Reaches(fault, 2) then (Change(views, Names(None, Some(File(partial, false)))), Failure(Io))
    else if !Reaches(fault, 3) then (Change(views, Names(None, Some(File(bytes, false)))), Failure(Io))
    else (Change(views, Names(None, Some(File(bytes, true)))), Success(hash(bytes)))
  }

  function PublishStaged(hash: seq<byte> -> Digest, limit: nat, views: Views, expected: Digest, fault: Fault)
    : (Views, Result<Publication, CaptureError>)
  {
    var now := Current(views);
    if now.final.Some? then (views, Failure(Io))
    else if now.incomplete.None? then (views, Failure(Contradictory))
    else if |now.incomplete.value.bytes| > limit then (views, Failure(Oversized))
    else if hash(now.incomplete.value.bytes) != expected then (views, Failure(Contradictory))
    else
      var (after, ok) := PublishFinal(views, fault);
      (after, if ok then Success(Published(expected)) else Failure(Io))
  }

  function Recover(hash: seq<byte> -> Digest, limit: nat, views: Views, expected: Digest, fault: Fault)
    : (Views, Result<Publication, CaptureError>)
  {
    match Current(views)
    case Names(None, None) => (views, Failure(Incomplete))
    case Names(None, Some(file)) =>
      if |file.bytes| > limit then (views, Failure(Oversized))
      else if hash(file.bytes) != expected then (views, Failure(Contradictory))
      else
        var (after, ok) := PublishFinal(views, fault);
        (after, if ok then Success(Repaired(expected)) else Failure(Io))
    case Names(Some(file), None) =>
      if |file.bytes| > limit then (views, Failure(Oversized))
      else if hash(file.bytes) != expected then (views, Failure(Contradictory))
      else (views, Success(Published(expected)))
    case Names(Some(final), Some(incomplete)) =>
      if |final.bytes| > limit || |incomplete.bytes| > limit then (views, Failure(Oversized))
      else if final.bytes != incomplete.bytes || hash(final.bytes) != expected then (views, Failure(Contradictory))
      else
        var (after, ok) := RemoveIncomplete(views, fault);
        (after, if ok then Success(Repaired(expected)) else Failure(Io))
  }

  // ----- safety over every history -----

  /** Some name holds the bytes, synced, and no name holds anything else. */
  predicate Holds(names: Names, bytes: seq<byte>) {
    && (names.final.Some? || names.incomplete.Some?)
    && (names.final.Some? ==> names.final.value == File(bytes, true))
    && (names.incomplete.Some? ==> names.incomplete.value == File(bytes, true))
  }

  /** The bytes are held now and after a crash at this moment, wherever it falls back to. */
  predicate Safe(views: Views, bytes: seq<byte>) {
    forall i | 0 <= i < |views| :: Holds(views[i], bytes)
  }

  datatype Action =
    | DoStage(bytes: seq<byte>, partial: seq<byte>, fault: Fault)
    | DoPublish(expected: Digest, fault: Fault)
    | DoRecover(expected: Digest, fault: Fault)
    | DoCrash(kept: nat, lost: seq<byte>)

  function After(hash: seq<byte> -> Digest, limit: nat, views: Views, a: Action): Views {
    match a
    case DoStage(bytes, partial, fault) => Stage(hash, limit, views, bytes, partial, fault).0
    case DoPublish(expected, fault) => PublishStaged(hash, limit, views, expected, fault).0
    case DoRecover(expected, fault) => Recover(hash, limit, views, expected, fault).0
    case DoCrash(kept, lost) => Crash(views, kept, lost)
  }

  function AfterAll(hash: seq<byte> -> Digest, limit: nat, views: Views, actions: seq<Action>): Views {
    if actions == [] then views
    else After(hash, limit, AfterAll(hash, limit, views, actions[..|actions| - 1]), actions[|actions| - 1])
  }

  lemma ActionKeepsSafe(hash: seq<byte> -> Digest, limit: nat, views: Views, a: Action, bytes: seq<byte>)
    requires Safe(views, bytes)
    ensures Safe(After(hash, limit, views, a), bytes)
  {
    assert Holds(Current(views), bytes);
  }

  /**
   Once bytes are staged under a durable name, no history of publications, recoveries, stagings
   and crashes, each cut off anywhere, ever loses them.
   */
  lemma {:induction false} BytesNeverLost(
    hash: seq<byte> -> Digest, limit: nat, views: Views, actions: seq<Action>, bytes: seq<byte>)
    requires Safe(views, bytes)
    ensures Safe(AfterAll(hash, limit, views, actions), bytes)
  {
    if actions != [] {
      var n := |actions| - 1;
      BytesNeverLost(hash, limit, views, actions[..n], bytes);
      ActionKeepsSafe(hash, limit, AfterAll(hash, limit, views, actions[..n]), actions[n], bytes);
    }
  }

  /**
   From every safe state recovery with the right digest ends with the final name alone, and a
   second recovery reports a plain publication and changes nothing.
   */
  lemma RecoveryCompletes(hash: seq<byte> -> Digest, limit: nat, views: Views, bytes: seq<byte>)
    requires Safe(views, bytes) && |bytes| <= limit
    ensures var (after, r) := Recover(hash, limit, views, hash(bytes), Healthy);
            && Current(after) == Names(Some(File(bytes, true)), None)
            && r == Success(if Current(views).incomplete.None? then Published(hash(bytes)) else Repaired(hash(bytes)))
            && Recover(hash, limit, after, hash(bytes), Healthy) == (after, Success(Published(hash(bytes))))
  {
    assert Holds(Current(views), bytes);
  }

  /** So whatever interrupted a capture, recovery afterwards finishes it with exactly its bytes. */
  lemma AnyInterruptionRecovers(
    hash: seq<byte> -> Digest, limit: nat, views: Views, actions: seq<Action>, bytes: seq<byte>)
    requires Safe(views, bytes) && |bytes| <= limit
    ensures var (after, r) := Recover(hash, limit, AfterAll(hash, limit, views, actions), hash(bytes), Healthy);
            Current(after) == Names(Some(File(bytes, true)), None) && r.Success?
  {
    BytesNeverLost(hash, limit, views, actions, bytes);
    RecoveryCompletes(hash, limit, AfterAll(hash, limit, views, actions), bytes);
  }

  function BytesOf(file: Option<File>): Option<seq<byte>> {
    if file.Some? then Some(file.value.bytes) else None
  }

  /** No crash takes the final name, with its present bytes, away. */
  ghost predicate FinalIsDurable(views: Views) {
    forall kept: nat, lost: seq<byte> ::
      BytesOf(Current(Crash(views, kept, lost)).final) == BytesOf(Current(views).final)
  }

  /** The final name is durable exactly if every state a crash can fall back to has it, synced. */
  lemma DurableExactly(views: Views)
    requires Current(views).final.Some?
    ensures FinalIsDurable(views) <==>
      Current(views).final.value.synced && forall i | 0 <= i < |views| :: views[i].final == Current(views).final
  {
    if FinalIsDurable(views) {
      forall i | 0 <= i < |views|
        ensures views[i].final.Some? && views[i].final.value.synced
        ensures views[i].final == Current(views).final || !Current(views).final.value.synced
      {
        var other := Current(views).final.value.bytes + [0];
        assert BytesOf(Current(Crash(views, i, other)).final) == BytesOf(Current(views).final);
      }
    }
  }

  /** A publication that reports success is durable exactly if the staged file was synced. */
  lemma PublicationDurable(hash: seq<byte> -> Digest, limit: nat, views: Views, expected: Digest, fault: Fault)
    ensures var (after, r) := PublishStaged(hash, limit, views, expected, fault);
            r.Success? ==>
              && after == [Names(Current(views).incomplete, None)]
              && (FinalIsDurable(after) <==> Current(views).incomplete.value.synced)
  {
    var (after, r) := PublishStaged(hash, limit, views, expected, fault);
    if r.Success? { DurableExactly(after); }
  }

  /**
   What a successful recovery makes durable. A repair syncs the directory but not the file, so it is
   durable exactly if the file was synced. Finding the final name alone syncs nothing: that answer is
   durable exactly if the name had reached every state a crash can fall back to.
   */
  lemma SuccessIsDurable(hash: seq<byte> -> Digest, limit: nat, views: Views, expected: Digest, fault: Fault)
    ensures var (after, r) := Recover(hash, limit, views, expected, fault);
            r.Success? ==>
              && Current(after).final.Some? && hash(Current(after).final.value.bytes) == expected
              && (r.value.Repaired? <==> Current(views).incomplete.Some?)
              && (FinalIsDurable(after) <==>
                    && Current(after).final.value.synced
                    && (|| Current(views).incomplete.Some?
                        || forall i | 0 <= i < |views| :: views[i].final == Current(views).final))
  {
    var (after, r) := Recover(hash, limit, views, expected, fault);
    if r.Success? { DurableExactly(after); }
  }

  /** Names that hold the bytes safely answer durably: repair from them, or a name in every state. */
  lemma SafeRepairIsDurable(hash: seq<byte> -> Digest, limit: nat, views: Views, bytes: seq<byte>)
    requires Safe(views, bytes) && |bytes| <= limit && Current(views).incomplete.Some?
    ensures FinalIsDurable(Recover(hash, limit, views, hash(bytes), Healthy).0)
  {
    assert Holds(Current(views), bytes);
    SuccessIsDurable(hash, limit, views, hash(bytes), Healthy);
  }

  /**
   A history in which finding the name is not durable: a publication is cut off after the link, a
   recovery after the removal, and the next recovery reports a publication that a crash still takes
   back. The bytes survive, under the other name.
   */
  lemma PublishedAnswerTakenBack(hash: seq<byte> -> Digest, limit: nat, bytes: seq<byte>)
    requires |bytes| <= limit
    ensures var staged := Names(None, Some(File(bytes, true)));
            var cut := [DoPublish(hash(bytes), CutAfter(1)), DoRecover(hash(bytes), CutAfter(1))];
            var views := AfterAll(hash, limit, [staged], cut);
            && Recover(hash, limit, views, hash(bytes), Healthy) == (views, Success(Published(hash(bytes))))
            && Crash(views, 0, []) == [staged]
            && !FinalIsDurable(views)
  {
    var file := Some(File(bytes, true));
    var start: Views := [Names(None, file)];
    var publish, recover := DoPublish(hash(bytes), CutAfter(1)), DoRecover(hash(bytes), CutAfter(1));
    var linked := After(hash, limit, start, publish);
    assert linked == [Names(None, file), Names(file, file)];
    assert [publish][..0] == [] && [publish, recover][..1] == [publish];
    assert AfterAll(hash, limit, start, [publish]) == linked;
    var views := After(hash, limit, linked, recover);
    assert views == linked + [Names(file, None)];
    assert AfterAll(hash, limit, start, [publish, recover]) == views;
    assert BytesOf(Current(Crash(views, 0, [])).final) != BytesOf(Current(views).final);
  }

  /**
   Staging that is cut off between writing and syncing leaves the right bytes in an unsynced file.
   Recovery accepts them and reports a repair, and a crash can still replace them.
   */
  lemma UnsyncedRepairCanBeLost(
    hash: seq<byte> -> Digest, limit: nat, bytes: seq<byte>, partial: seq<byte>, lost: seq<byte>)
    requires |bytes| <= limit
    ensures var staged := Stage(hash, limit, [Names(None, None)], bytes, partial, CutAfter(2)).0;
            var (after, r) := Recover(hash, limit, staged, hash(bytes), Healthy);
            && r == Success(Repaired(hash(bytes)))
            && Current(Crash(after, 0, lost)) == Names(Some(File(lost, true)), None)
            && !FinalIsDurable(after)
  {
    var staged := Stage(hash, limit, [Names(None, None)], bytes, partial, CutAfter(2)).0;
    SuccessIsDurable(hash, limit, staged, hash(bytes), Healthy);
  }

  /** Files that contradict the expected digest, or each other, are refused and left untouched. */
  lemma ContradictionUntouched(hash: seq<byte> -> Digest, limit: nat, views: Views, expected: Digest, fault: Fault)
    ensures var now := Current(views);
            var contradicts :=
              || (now.final.Some? && hash(now.final.value.bytes) != expected)
              || (now.incomplete.Some? && hash(now.incomplete.value.bytes) != expected)
              || (now.final.Some? && now.incomplete.Some? && BytesOf(now.final) != BytesOf(now.incomplete));
            contradicts ==>
              && Recover(hash, limit, views, expected, fault).0 == views
              && Recover(hash, limit, views, expected, fault).1.Failure?
              && PublishStaged(hash, limit, views, expected, fault).0 == views
              && PublishStaged(hash, limit, views, expected, fault).1.Failure?
  {
  }

  /**
   Staging syncs the file but not the directory: until the first sync of a publication a crash
   can still lose the name. It is safe exactly when the crash keeps the new entry.
   */
  lemma StagingAloneIsNotDurable(
    hash: seq<byte> -> Digest, limit: nat, bytes: seq<byte>, partial: seq<byte>, kept: nat, lost: seq<byte>)
    requires |bytes| <= limit
    ensures var (after, r) := Stage(hash, limit, [Names(None, None)], bytes, partial, Healthy);
            && r == Success(hash(bytes)) && Holds(Current(after), bytes)
            && (Safe(Crash(after, kept, lost), bytes) <==> kept > 0)
  {
  }

  /** Stage and publish without a failure: the bytes are at the final name, durably. */
  lemma PublishRoundTrip(hash: seq<byte> -> Digest, limit: nat, bytes: seq<byte>, partial: seq<byte>)
    requires |bytes| <= limit
    ensures var (staged, digest) := Stage(hash, limit, [Names(None, None)], bytes, partial, Healthy);
            && digest == Success(hash(bytes))
            && PublishStaged(hash, limit, staged, digest.value, Healthy)
               == ([Names(Some(File(bytes, true)), None)], Success(Published(hash(bytes))))
  {
  }

  // ----- the store -----

  class CaptureIndexStore {
    const hash: seq<byte> -> Digest
    const limit: nat
    var views: Views

    constructor (hash: seq<byte> -> Digest, limit: nat)
      ensures this.hash == hash && this.limit == limit && views == [Names(None, None)]
    {
      this.hash, this.limit, this.views := hash, limit, [Names(None, None)];
    }

    method CreateLink(fault: Fault, step: nat) returns (ok: bool)
      requires Current(views).incomplete.Some?
      modifies this
      ensures ok == Reaches(fault, step)
      ensures views ==
              if ok then Change(old(views), Names(Current(old(views)).incomplete, Current(old(views)).incomplete))
                       else old(views)
    {
      if !Reaches(fault, step) { return false; }
      var file := Current(views).incomplete;
      views := views + [Names(file, file)];
      return true;
    }

    method RemoveName(fault: Fault, step: nat) returns (ok: bool)
      modifies this
      ensures ok == Reaches(fault, step)
      ensures views == if ok then Change(old(views), Current(old(views)).(incomplete := None)) else old(views)
    {
      if !Reaches(fault, step) { return false; }
      views := views + [Current(views).(incomplete := None)];
      return true;
    }

    method SyncDirectory(fault: Fault, step: nat) returns (ok: bool)
      modifies this
      ensures ok == Reaches(fault, step)
      ensures views == if ok then Sync(old(views)) else old(views)
    {
      if !Reaches(fault, step) { return false; }
      views := [Current(views)];
      return true;
    }

    method PublishFinalName(fault: Fault) returns (ok: bool)
      requires Current(views).incomplete.Some?
      modifies this
      ensures (views, ok) == PublishFinal(old(views), fault)
    {
      ok := CreateLink(fault, 1);
      if !ok { return; }
      ok := SyncDirectory(fault, 2);
      if !ok { return; }
      ok := RemoveName(fault, 3);
      if !ok { return; }
      ok := SyncDirectory(fault, 4);
    }

    method StageIncomplete(bytes: seq<byte>, partial: seq<byte>, fault: Fault) returns (r: Result<Digest, CaptureError>)
      modifies this
      ensures (views, r) == Stage(hash, limit, old(views), bytes, partial, fault)
    {
      if |bytes| > limit { return Failure(Oversized); }
      if Current(views).final.Some? { return Failure(CaptureError.Io); }
      if Current(views).incomplete.Some? { return Failure(CaptureError.Io); }
      if !Reaches(fault, 1) { return Failure(CaptureError.Io); }
      if !Reaches(fault, 2) {
        views := views + [Names(None, Some(File(partial, false)))];
        return Failure(CaptureError.Io);
      }
      if !Reaches(fault, 3) {
        views := views + [Names(None, Some(File(bytes, false)))];
        return Failure(CaptureError.Io);
      }
      views := views + [Names(None, Some(File(bytes, true)))];
      return Success(hash(bytes));
    }

    method PublishStagedIndex(expected: Digest, fault: Fault) returns (r: Result<Publication, CaptureError>)
      modifies this
      ensures (views, r) == PublishStaged(hash, limit, old(views), expected, fault)
    {
      if Current(views).final.Some? { return Failure(CaptureError.Io); }
      if Current(views).incomplete.None? { return Failure(Contradictory); }
      var bytes := Current(views).incomplete.value.bytes;
      if |bytes| > limit { return Failure(Oversized); }
      if hash(bytes) != expected { return Failure(Contradictory); }
      var ok := PublishFinalName(fault);
      return if ok then Success(Published(expected)) else Failure(CaptureError.Io);
    }

    method RecoverIndex(expected: Digest, fault: Fault) returns (r: Result<Publication, CaptureError>)
      modifies this
      ensures (views, r) == Recover(hash, limit, old(views), expected, fault)
    {
      var now := Current(views);
      if now.final.None? && now.incomplete.None? { return Failure(Incomplete); }
      if now.final.None? {
        if |now.incomplete.value.bytes| > limit { return Failure(Oversized); }
        if hash(now.incomplete.value.bytes) != expected { return Failure(Contradictory); }
        var ok := PublishFinalName(fault);
        return if ok then Success(Repaired(expected)) else Failure(CaptureError.Io);
      }
      if |now.final.value.bytes| > limit { return Failure(Oversized); }
      if now.incomplete.None? {
        return if hash(now.final.value.bytes) == expected then Success(Published(expected)) else Failure(Contradictory);
      }
      if |now.incomplete.value.bytes| > limit { return Failure(Oversized); }
      if now.final.value.bytes != now.incomplete.value.bytes || hash(now.final.value.bytes) != expected {
        return Failure(Contradictory);
      }
      var ok := RemoveName(fault, 1);
      if !ok { return Failure(CaptureError.Io); }
      ok := SyncDirectory(fault, 2);
      return if ok then Success(Repaired(expected)) else Failure(CaptureError.Io);
    }
  }
}
