/**
 Binding an imported artifact to a correlation chain: the in-place change of a Mission record,
 and the state check that follows it
 (mission/internal/mission/correlation_chain.go, `recordCorrelationChainImport` and
 `validateRecordCorrelationState`).
 */
module CorrelationImport {
  import opened Distinct
  import JsonPointer
  import opened ParentGraph
  import opened Words
  import opened Wrappers

  const REFERENCE_SCHEMA: string := "ao.mission.correlation-chain-reference.v0.1"
  const REDACTED_PATH: string := "<local-path-redacted>"

  datatype LocatorState = Live | ArchiveRedacted | OtherState

  datatype BindingMode = NativeField | DigestLink | OtherMode

  /** `widens` stands for the six authority flags: one of them is set. */
  datatype Entry = Entry(
    role: string, digest: string, locatorState: LocatorState, locatorDigest: string, archiveSource: string,
    producer: string, mode: BindingMode, nativeIdentifier: string, nativeField: string,
    parentRole: string, parentDigest: string, parentDigestField: string, widens: bool)

  datatype Reference = Reference(
    schema: string, missionId: string, correlationId: string, chainDigest: string, referenceDigest: string,
    entries: seq<Entry>, widens: bool)

  datatype Import = Import(
    role: string, digest: string, path: string, locatorState: LocatorState, locatorDigest: string,
    archiveSource: string, chainDigest: string, referenceDigest: string)

  /** The part of a Mission record that the chain state lives in. */
  datatype State = State(missionId: string, correlationId: string, references: seq<Reference>, imports: seq<Import>)

  /** The digests the checks recompute, and the test for a path of white space only. */
  datatype Rules = Rules(
    liveLocator: (string, string, string) -> string,
    archivedLocator: Import -> string,
    referenceHash: Reference -> string,
    isBlank: string -> bool)

  /** A letter or digit, then at most 127 letters, digits, dots, underscores, colons and hyphens. */
  predicate IsRole(s: string) {
    1 <= |s| <= 128 && AlphaNumeric(s[0])
    && forall i | 1 <= i < |s| :: AlphaNumeric(s[i]) || s[i] in {'.', '_', ':', '-'}
  }

  predicate AlphaNumeric(c: char) {
    '0' <= c <= '9' || 'A' <= c <= 'Z' || 'a' <= c <= 'z'
  }

  /** A reference digest commits to everything else in the reference. */
  ghost predicate CollisionFree(rules: Rules) {
    forall a, b :: rules.referenceHash(a) == rules.referenceHash(b) ==> a == b
  }

  function EntryFor(entries: seq<Entry>, role: string): (e: Option<Entry>)
    ensures e.Some? ==> e.value in entries && e.value.role == role
  {
    if entries == [] then None
    else if entries[0].role == role then Some(entries[0])
    else EntryFor(entries[1..], role)
  }

  // ----- a valid reference -----

  predicate LocatorShape(state: LocatorState, source: string) {
    match state
    case Live => source == ""
    case ArchiveRedacted => ValidDigest(source)
    case OtherState => false
  }

  ghost predicate Provenance(e: Entry) {
    match e.mode
    case NativeField =>
      e.nativeIdentifier != "" && JsonPointer.IsPointer(e.nativeField)
      && e.parentRole == "" && e.parentDigest == "" && e.parentDigestField == ""
    case DigestLink =>
      IsRole(e.parentRole) && ValidDigest(e.parentDigest) && JsonPointer.IsPointer(e.parentDigestField)
      && e.parentRole != e.role && e.nativeIdentifier == "" && e.nativeField == ""
    case OtherMode => false
  }

  ghost predicate ValidEntry(e: Entry) {
    && IsRole(e.role) && ValidDigest(e.digest) && ValidDigest(e.locatorDigest)
    && IsRole(e.producer) && !e.widens
    && LocatorShape(e.locatorState, e.archiveSource)
    && Provenance(e)
  }

  ghost predicate DistinctRoles(entries: seq<Entry>) {
    forall i, j | 0 <= i < j < |entries| :: entries[i].role != entries[j].role
  }

  predicate Linked(entries: seq<Entry>, e: Entry) {
    e.mode == DigestLink ==>
      var parent := EntryFor(entries, e.parentRole);
      parent.Some? && parent.value.digest == e.parentDigest
  }

  function ParentLinks(entries: seq<Entry>): Links {
    if entries == [] then map[]
    else ParentLinks(entries[..|entries| - 1])[entries[|entries| - 1].role := entries[|entries| - 1].parentRole]
  }

  ghost predicate ValidReference(rules: Rules, missionId: string, correlationId: string, r: Reference) {
    && r.schema == REFERENCE_SCHEMA && r.missionId == missionId && r.correlationId == correlationId
    && ValidDigest(r.chainDigest) && ValidDigest(r.referenceDigest)
    && rules.referenceHash(r.(referenceDigest := "")) == r.referenceDigest
    && r.entries != [] && !r.widens
    && (forall e | e in r.entries :: ValidEntry(e))
    && DistinctRoles(r.entries)
    && (forall e | e in r.entries :: Linked(r.entries, e))
    && Acyclic(ParentLinks(r.entries))
  }

  method ValidateEntry(e: Entry) returns (ok: bool)
    ensures ok <==> ValidEntry(e)
  {
    ok := IsRole(e.role) && ValidDigest(e.digest) && ValidDigest(e.locatorDigest)
          && IsRole(e.producer) && !e.widens && LocatorShape(e.locatorState, e.archiveSource);
    if !ok { return; }
    match e.mode
    case NativeField =>
      var pointer := JsonPointer.ValidPointer(e.nativeField);
      ok := e.nativeIdentifier != "" && pointer
            && e.parentRole == "" && e.parentDigest == "" && e.parentDigestField == "";
    case DigestLink =>
      var pointer := JsonPointer.ValidPointer(e.parentDigestField);
      ok := IsRole(e.parentRole) && ValidDigest(e.parentDigest) && pointer
            && e.parentRole != e.role && e.nativeIdentifier == "" && e.nativeField == "";
    case OtherMode =>
      ok := false;
  }

  lemma {:induction false} EntryForAppends(entries: seq<Entry>, e: Entry, role: string)
    ensures EntryFor(entries + [e], role) ==
      if EntryFor(entries, role).Some? then EntryFor(entries, role)
      else if e.role == role then Some(e) else None
  {
    if entries == [] {
      assert entries + [e] == [e];
    } else {
      assert (entries + [e])[1..] == entries[1..] + [e];
      if entries[0].role != role { EntryForAppends(entries[1..], e, role); }
    }
  }

  lemma {:induction false} EntryForAbsent(entries: seq<Entry>, role: string)
    ensures EntryFor(entries, role).None? ==> forall e | e in entries :: e.role != role
  {
    if entries != [] && entries[0].role != role { EntryForAbsent(entries[1..], role); }
  }

  /** The map finds each role's entry. */
  ghost predicate Indexes(byRole: map<string, Entry>, entries: seq<Entry>) {
    forall role :: EntryFor(entries, role) == if role in byRole then Some(byRole[role]) else None
  }

  lemma IndexEntry(byRole: map<string, Entry>, entries: seq<Entry>, e: Entry)
    requires Indexes(byRole, entries) && DistinctRoles(entries) && e.role !in byRole
    ensures Indexes(byRole[e.role := e], entries + [e]) && DistinctRoles(entries + [e])
  {
    EntryForAbsent(entries, e.role);
    forall role { EntryForAppends(entries, e, role); }
  }

  lemma KnownRole(byRole: map<string, Entry>, entries: seq<Entry>, i: nat)
    requires i < |entries| && Indexes(byRole, entries[..i]) && entries[i].role in byRole
    ensures !DistinctRoles(entries)
  {
    var known := EntryFor(entries[..i], entries[i].role).value;
    var k :| 0 <= k < i && entries[k] == known;
  }

  /** The entries of a reference one by one, and by role. */
  method CheckEntries(entries: seq<Entry>) returns (ok: bool, byRole: map<string, Entry>)
    ensures ok <==> (forall e | e in entries :: ValidEntry(e)) && DistinctRoles(entries)
    ensures ok ==> Indexes(byRole, entries)
  {
    byRole := map[];
    var i := 0;
    while i < |entries|
      invariant i <= |entries|
      invariant forall k | 0 <= k < i :: ValidEntry(entries[k])
      invariant DistinctRoles(entries[..i]) && Indexes(byRole, entries[..i])
    {
      var e := entries[i];
      ok := ValidateEntry(e);
      if !ok {
        assert e in entries;
        return;
      }
      if e.role in byRole {
        KnownRole(byRole, entries, i);
        return false, byRole;
      }
      IndexEntry(byRole, entries[..i], e);
      assert entries[..i + 1] == entries[..i] + [e];
      byRole := byRole[e.role := e];
      i := i + 1;
    }
    assert entries[..i] == entries;
    ok := true;
  }

  method CheckLinks(entries: seq<Entry>, byRole: map<string, Entry>) returns (ok: bool)
    requires Indexes(byRole, entries)
    ensures ok <==> forall e | e in entries :: Linked(entries, e)
  {
    var i := 0;
    while i < |entries|
      invariant i <= |entries|
      invariant forall k | 0 <= k < i :: Linked(entries, entries[k])
    {
      var e := entries[i];
      if e.mode == DigestLink && (e.parentRole !in byRole || byRole[e.parentRole].digest != e.parentDigest) {
        assert e in entries && !Linked(entries, e);
        return false;
      }
      i := i + 1;
    }
    ok := true;
  }

  method ValidateEntries(entries: seq<Entry>) returns (ok: bool)
    ensures ok <==>
      && (forall e | e in entries :: ValidEntry(e))
      && DistinctRoles(entries)
      && (forall e | e in entries :: Linked(entries, e))
      && Acyclic(ParentLinks(entries))
  {
    var byRole;
    ok, byRole := CheckEntries(entries);
    if !ok { return; }
    ok := CheckLinks(entries, byRole);
    if !ok { return; }
    var parents := CollectParents(entries);
    ok := ValidateCorrelationParentGraph(parents);
  }

  method CollectParents(entries: seq<Entry>) returns (links: Links)
    ensures links == ParentLinks(entries)
  {
    links := map[];
    var i := 0;
    while i < |entries|
      invariant i <= |entries|
      invariant links == ParentLinks(entries[..i])
    {
      assert entries[..i + 1][..i] == entries[..i];
      links := links[entries[i].role := entries[i].parentRole];
      i := i + 1;
    }
    assert entries[..i] == entries;
  }

  method ValidateReference(rules: Rules, missionId: string, correlationId: string, r: Reference) returns (ok: bool)
    ensures ok <==> ValidReference(rules, missionId, correlationId, r)
  {
    if r.schema != REFERENCE_SCHEMA || r.missionId != missionId || r.correlationId != correlationId { return false; }
    if !ValidDigest(r.chainDigest) || !ValidDigest(r.referenceDigest) { return false; }
    if rules.referenceHash(r.(referenceDigest := "")) != r.referenceDigest { return false; }
    if r.entries == [] || r.widens { return false; }
    ok := ValidateEntries(r.entries);
  }

  // ----- a valid state -----

  function LocatorDigest(rules: Rules, i: Import): string {
    if i.locatorState == Live then rules.liveLocator(i.role, i.digest, i.path)
    else rules.archivedLocator(i.(locatorDigest := "", referenceDigest := ""))
  }

  /** The locator is the one of this import's own role, digest and path. */
  predicate LocatorFits(rules: Rules, i: Import) {
    && i.locatorDigest == LocatorDigest(rules, i)
    && (i.path == REDACTED_PATH <==> i.locatorState == ArchiveRedacted)
    && LocatorShape(i.locatorState, i.archiveSource)
  }

  predicate WellFormedImport(rules: Rules, i: Import) {
    && IsRole(i.role) && ValidDigest(i.digest) && !rules.isBlank(i.path)
    && ValidDigest(i.locatorDigest) && ValidDigest(i.chainDigest) && ValidDigest(i.referenceDigest)
    && LocatorFits(rules, i)
  }

  /** The reference commits to this import: same chain, same artifact, same locator. */
  predicate Binds(r: Reference, i: Import) {
    && r.referenceDigest == i.referenceDigest && r.chainDigest == i.chainDigest
    && var e := EntryFor(r.entries, i.role);
       e.Some? && e.value.digest == i.digest && e.value.locatorState == i.locatorState
       && e.value.locatorDigest == i.locatorDigest && e.value.archiveSource == i.archiveSource
  }

  ghost predicate Bound(references: seq<Reference>, i: Import) {
    exists r :: r in references && Binds(r, i)
  }

  ghost predicate Used(imports: seq<Import>, r: Reference) {
    exists i :: i in imports && i.referenceDigest == r.referenceDigest
  }

  const BY_CHAIN: Reference -> string := (r: Reference) => r.chainDigest
  const BY_DIGEST: Reference -> string := (r: Reference) => r.referenceDigest
  const BY_ROLE: Import -> string := (i: Import) => i.role

  ghost predicate DistinctReferences(references: seq<Reference>) {
    DistinctBy(references, BY_CHAIN) && DistinctBy(references, BY_DIGEST)
  }

  ghost predicate DistinctImports(imports: seq<Import>) {
    DistinctBy(imports, BY_ROLE)
  }

  ghost predicate ValidReferences(rules: Rules, s: State) {
    && (forall r | r in s.references :: ValidReference(rules, s.missionId, s.correlationId, r))
    && DistinctReferences(s.references)
  }

  ghost predicate ValidImport(rules: Rules, references: seq<Reference>, i: Import) {
    WellFormedImport(rules, i) && Bound(references, i)
  }

  ghost predicate ValidImports(rules: Rules, s: State) {
    && (forall i | i in s.imports :: ValidImport(rules, s.references, i))
    && DistinctImports(s.imports)
  }

  ghost predicate ValidState(rules: Rules, s: State) {
    (s.references == [] && s.imports == []) ||
    (&& s.missionId != "" && s.correlationId != ""
     && ValidReferences(rules, s)
     && ValidImports(rules, s)
     && forall r | r in s.references :: Used(s.imports, r))
  }

  // ----- the change -----

  /** The new reference vouches for this import's artifact. */
  predicate Covered(reference: Reference, i: Import) {
    var e := EntryFor(reference.entries, i.role);
    e.Some? && e.value.digest == i.digest
  }

  function Rebind(reference: Reference, i: Import): (r: Import)
    ensures r.role == i.role && r.digest == i.digest && r.path == i.path
  {
    if Covered(reference, i) then
      var e := EntryFor(reference.entries, i.role).value;
      i.(chainDigest := reference.chainDigest, referenceDigest := reference.referenceDigest,
         locatorState := e.locatorState, locatorDigest := e.locatorDigest, archiveSource := e.archiveSource)
    else i
  }

  function RebindAll(reference: Reference, imports: seq<Import>): (r: seq<Import>)
    ensures |r| == |imports| && forall k | 0 <= k < |r| :: r[k] == Rebind(reference, imports[k])
  {
    if imports == [] then [] else [Rebind(reference, imports[0])] + RebindAll(reference, imports[1..])
  }

  /** The new import takes its locator from the reference; its chain was set by the caller. */
  function Located(e: Entry, binding: Import): Import {
    binding.(locatorState := e.locatorState, locatorDigest := e.locatorDigest, archiveSource := e.archiveSource)
  }

  function HasRole(imports: seq<Import>, role: string): bool {
    exists i | i in imports :: i.role == role
  }

  function HasChain(references: seq<Reference>, chainDigest: string): bool {
    exists r | r in references :: r.chainDigest == chainDigest
  }

  function WithReference(references: seq<Reference>, reference: Reference): seq<Reference> {
    if HasChain(references, reference.chainDigest) then references else references + [reference]
  }

  function Keep(references: seq<Reference>, used: set<string>): seq<Reference> {
    if references == [] then []
    else (if references[0].referenceDigest in used then [references[0]] else []) + Keep(references[1..], used)
  }

  function Digests(imports: seq<Import>): set<string> {
    set i | i in imports :: i.referenceDigest
  }

  lemma AppendDigest(imports: seq<Import>, b: Import)
    ensures Digests(imports + [b]) == Digests(imports) + {b.referenceDigest}
  {
    assert forall i :: i in imports + [b] <==> i in imports || i == b;
  }

  /** The record after the change, before it is checked once more. */
  function Changed(s: State, reference: Reference, e: Entry, binding: Import): State {
    var imports := RebindAll(reference, s.imports) + [Located(e, binding)];
    State(s.missionId, s.correlationId, Keep(WithReference(s.references, reference), Digests(imports)), imports)
  }

  lemma UsedIsNamed(imports: seq<Import>, r: Reference)
    ensures Used(imports, r) <==> r.referenceDigest in Digests(imports)
  {
  }

  method AllNamed(references: seq<Reference>, used: set<string>) returns (ok: bool)
    ensures ok <==> forall r | r in references :: r.referenceDigest in used
  {
    var i := 0;
    while i < |references|
      invariant i <= |references|
      invariant forall k | 0 <= k < i :: references[k].referenceDigest in used
    {
      if references[i].referenceDigest !in used { return false; }
      i := i + 1;
    }
    ok := true;
  }

  /** The imports checked so far, with their roles and the references they use. */
  ghost predicate Checked(
    rules: Rules, references: seq<Reference>, imports: seq<Import>, roles: set<string>, used: set<string>)
  {
    && (forall i | i in imports :: ValidImport(rules, references, i)) && DistinctImports(imports)
    && roles == KeysBy(imports, BY_ROLE) && used == Digests(imports)
  }

  lemma CheckedMore(
    rules: Rules, references: seq<Reference>, imports: seq<Import>, roles: set<string>, used: set<string>, b: Import)
    requires Checked(rules, references, imports, roles, used) && b.role !in roles
    requires ValidImport(rules, references, b)
    ensures Checked(rules, references, imports + [b], roles + {b.role}, used + {b.referenceDigest})
  {
    AppendBy(imports, b, BY_ROLE);
    AppendDigest(imports, b);
  }

  class Record {
    const rules: Rules
    const missionId: string
    const correlationId: string
    var references: seq<Reference>
    var imports: seq<Import>

    constructor (rules: Rules, s: State)
      ensures Contents() == s && this.rules == rules
    {
      this.rules, missionId, correlationId := rules, s.missionId, s.correlationId;
      references, imports := s.references, s.imports;
    }

    function Contents(): State
      reads this
    {
      State(missionId, correlationId, references, imports)
    }

    /** Checks the references: each on its own, and both digests without repetition. */
    method ValidateReferences() returns (ok: bool)
      ensures ok <==> ValidReferences(rules, Contents())
    {
      var list := references;
      var chains, digests := {}, {};
      var i := 0;
      while i < |list|
        invariant i <= |list|
        invariant forall k | 0 <= k < i :: ValidReference(rules, missionId, correlationId, list[k])
        invariant DistinctReferences(list[..i])
        invariant chains == KeysBy(list[..i], BY_CHAIN) && digests == KeysBy(list[..i], BY_DIGEST)
      {
        var r := list[i];
        ok := ValidateReference(rules, missionId, correlationId, r);
        if !ok {
          assert r in references;
          return;
        }
        if r.chainDigest in chains || r.referenceDigest in digests {
          if r.chainDigest in chains { RepeatedBy(list, i, BY_CHAIN); } else { RepeatedBy(list, i, BY_DIGEST); }
          return false;
        }
        assert list[..i + 1] == list[..i] + [r];
        AppendBy(list[..i], r, BY_CHAIN);
        AppendBy(list[..i], r, BY_DIGEST);
        chains, digests := chains + {r.chainDigest}, digests + {r.referenceDigest};
        i := i + 1;
      }
      assert list[..i] == list;
      ok := true;
    }

    /** The reference with this digest; there is at most one in a valid state. */
    method FindReference(digest: string) returns (found: Option<Reference>)
      requires DistinctReferences(references)
      ensures found.Some? ==> found.value in references && found.value.referenceDigest == digest
      ensures found.Some? ==> forall r | r in references && r.referenceDigest == digest :: r == found.value
      ensures found.None? ==> forall r | r in references :: r.referenceDigest != digest
    {
      var i := 0;
      while i < |references|
        invariant i <= |references|
        invariant forall k | 0 <= k < i :: references[k].referenceDigest != digest
      {
        if references[i].referenceDigest == digest { return Some(references[i]); }
        i := i + 1;
      }
      found := None;
    }

    /** One import on its own, and against the one reference it can be bound to. */
    method ValidateImport(b: Import) returns (ok: bool)
      requires DistinctReferences(references)
      ensures ok <==> ValidImport(rules, references, b)
    {
      if !WellFormedImport(rules, b) { return false; }
      var reference := FindReference(b.referenceDigest);
      ok := reference.Some? && Binds(reference.value, b);
    }

    method ValidateImports() returns (ok: bool, used: set<string>)
      requires DistinctReferences(references)
      ensures ok <==> ValidImports(rules, Contents())
      ensures ok ==> used == Digests(imports)
    {
      hide Binds;
      var bindings := imports;
      var roles := {};
      used := {};
      var i := 0;
      while i < |bindings|
        invariant i <= |bindings| && Checked(rules, references, bindings[..i], roles, used)
      {
        var b := bindings[i];
        ok := ValidateImport(b);
        if !ok {
          assert b in imports;
          return;
        }
        if b.role in roles {
          RepeatedBy(bindings, i, BY_ROLE);
          return false, used;
        }
        assert bindings[..i + 1] == bindings[..i] + [b];
        CheckedMore(rules, references, bindings[..i], roles, used, b);
        roles, used := roles + {b.role}, used + {b.referenceDigest};
        i := i + 1;
      }
      assert bindings[..i] == bindings;
      ok := true;
    }

    method ValidateState() returns (ok: bool)
      ensures ok <==> ValidState(rules, Contents())
    {
      if references == [] && imports == [] { return true; }
      if missionId == "" || correlationId == "" { return false; }
      ok := ValidateReferences();
      if !ok { return; }
      var used;
      ok, used := ValidateImports();
      if !ok { return; }
      forall r { UsedIsNamed(imports, r); }
      ok := AllNamed(references, used);
    }

    /** Rewrites, in place, the imports that the new reference covers. */
    method RebindImports(reference: Reference)
      modifies this`imports
      ensures imports == RebindAll(reference, old(imports))
    {
      ghost var before := imports;
      var i := 0;
      while i < |imports|
        invariant i <= |imports| == |before|
        invariant forall k | 0 <= k < i :: imports[k] == Rebind(reference, before[k])
        invariant forall k | i <= k < |imports| :: imports[k] == before[k]
      {
        imports := imports[i := Rebind(reference, imports[i])];
        i := i + 1;
      }
    }

    method FilterReferences()
      modifies this`references
      ensures references == Keep(old(references), Digests(imports))
    {
      var used := set i | i in imports :: i.referenceDigest;
      var kept := [];
      var i := 0;
      assert references[0..] == references;
      while i < |references|
        invariant i <= |references|
        invariant kept + Keep(references[i..], used) == Keep(references, used)
      {
        assert references[i..][1..] == references[i + 1..];
        if references[i].referenceDigest in used { kept := kept + [references[i]]; }
        i := i + 1;
      }
      assert Keep(references[i..], used) == [];
      references := kept;
    }

    method RecordCorrelationChainImport(reference: Reference, binding: Import) returns (ok: bool)
      modifies this
      ensures old(HasRole(imports, binding.role)) ==> !ok && Contents() == old(Contents())
      ensures !old(HasRole(imports, binding.role)) && EntryFor(reference.entries, binding.role).None? ==>
        && !ok && references == WithReference(old(references), reference)
        && imports == RebindAll(reference, old(imports))
      ensures !old(HasRole(imports, binding.role)) && EntryFor(reference.entries, binding.role).Some? ==>
        && Contents() == Changed(old(Contents()), reference, EntryFor(reference.entries, binding.role).value, binding)
        && (ok <==> ValidState(rules, Contents()))
    {
      if exists i | i in imports :: i.role == binding.role { return false; }
      if !(exists r | r in references :: r.chainDigest == reference.chainDigest) {
        references := references + [reference];
      }
      RebindImports(reference);
      var entry := EntryFor(reference.entries, binding.role);
      if entry.None? { return false; }
      imports := imports + [Located(entry.value, binding)];
      FilterReferences();
      ok := ValidateState();
    }
  }

  // ----- the final check fails only for a moved artifact or a changed chain -----

  /** A stored reference to the same chain is the same reference. */
  ghost predicate SameChainSameReference(s: State, reference: Reference) {
    forall r | r in s.references && r.chainDigest == reference.chainDigest :: r == reference
  }

  /** Where the reference covers an import, its locator is the one of the import's own path. */
  ghost predicate PathsKept(rules: Rules, imports: seq<Import>, reference: Reference) {
    forall i | i in imports && Covered(reference, i) :: LocatorFits(rules, Rebind(reference, i))
  }

  /** A caller's binding: a new role, covered by the reference it names. */
  ghost predicate NewBinding(rules: Rules, s: State, reference: Reference, binding: Import) {
    && !HasRole(s.imports, binding.role) && Covered(reference, binding)
    && binding.chainDigest == reference.chainDigest && binding.referenceDigest == reference.referenceDigest
    && !rules.isBlank(binding.path)
  }

  lemma {:induction false} KeepMembers(references: seq<Reference>, used: set<string>, r: Reference)
    ensures r in Keep(references, used) <==> r in references && r.referenceDigest in used
  {
    if references != [] { KeepMembers(references[1..], used, r); }
  }

  lemma {:induction false} KeepDistinct(references: seq<Reference>, used: set<string>)
    requires DistinctReferences(references)
    ensures DistinctReferences(Keep(references, used))
  {
    if references != [] {
      var rest := Keep(references[1..], used);
      KeepDistinct(references[1..], used);
      forall k | 0 <= k < |rest|
        ensures references[0].chainDigest != rest[k].chainDigest
        ensures references[0].referenceDigest != rest[k].referenceDigest
      {
        KeepMembers(references[1..], used, rest[k]);
        var m :| 0 <= m < |references[1..]| && references[1..][m] == rest[k];
        assert BY_CHAIN(references[0]) != BY_CHAIN(references[m + 1]);
        assert BY_DIGEST(references[0]) != BY_DIGEST(references[m + 1]);
      }
    }
  }

  /** Two valid references with one digest are one reference. */
  lemma SameDigestSameReference(rules: Rules, m: string, c: string, a: Reference, b: Reference)
    requires CollisionFree(rules)
    requires ValidReference(rules, m, c, a) && ValidReference(rules, m, c, b)
    requires a.referenceDigest == b.referenceDigest
    ensures a == b
  {
    assert a.(referenceDigest := "") == b.(referenceDigest := "");
  }

  lemma AddedStaysDistinct(rules: Rules, s: State, reference: Reference)
    requires CollisionFree(rules) && ValidReferences(rules, s)
    requires ValidReference(rules, s.missionId, s.correlationId, reference)
    ensures DistinctReferences(WithReference(s.references, reference))
  {
    if !HasChain(s.references, reference.chainDigest) {
      forall k | 0 <= k < |s.references|
        ensures s.references[k].chainDigest != reference.chainDigest
        ensures s.references[k].referenceDigest != reference.referenceDigest
      {
        var r := s.references[k];
        assert r in s.references;
        if r.referenceDigest == reference.referenceDigest {
          SameDigestSameReference(rules, s.missionId, s.correlationId, r, reference);
        }
      }
    }
  }

  /** A covered import, rebound, is bound to the new reference. */
  lemma ReboundIsBound(rules: Rules, m: string, c: string, reference: Reference, i: Import)
    requires ValidReference(rules, m, c, reference) && Covered(reference, i) && !rules.isBlank(i.path)
    requires LocatorFits(rules, Rebind(reference, i))
    ensures WellFormedImport(rules, Rebind(reference, i)) && Binds(reference, Rebind(reference, i))
  {
    var e := EntryFor(reference.entries, i.role).value;
    assert ValidEntry(e);
  }

  /** The record after importing a covered binding, before it is checked once more. */
  function After(s: State, reference: Reference, binding: Import): State
    requires Covered(reference, binding)
  {
    Changed(s, reference, EntryFor(reference.entries, binding.role).value, binding)
  }

  /** The new import is a rebound one too, since the caller named the reference. */
  lemma AfterImports(s: State, reference: Reference, binding: Import)
    requires Covered(reference, binding)
    requires binding.chainDigest == reference.chainDigest && binding.referenceDigest == reference.referenceDigest
    ensures After(s, reference, binding).imports == RebindAll(reference, s.imports + [binding])
    ensures RebindAll(reference, s.imports + [binding])[|s.imports|] == Rebind(reference, binding)
  {
    var e := EntryFor(reference.entries, binding.role).value;
    assert Located(e, binding) == Rebind(reference, binding);
  }

  /** What the final filter retains. */
  lemma AfterReferences(s: State, reference: Reference, binding: Import, r: Reference)
    requires Covered(reference, binding)
    ensures var after := After(s, reference, binding);
      r in after.references <==>
        r in WithReference(s.references, reference) && r.referenceDigest in Digests(after.imports)
  {
    var after := After(s, reference, binding);
    KeepMembers(WithReference(s.references, reference), Digests(after.imports), r);
  }

  /** The retained references include whichever one still binds an import. */
  lemma BinderRetained(s: State, reference: Reference, binding: Import, r: Reference, i: Import)
    requires Covered(reference, binding)
    requires r in WithReference(s.references, reference)
    requires i in After(s, reference, binding).imports && Binds(r, i)
    ensures Bound(After(s, reference, binding).references, i)
  {
    assert i.referenceDigest in Digests(After(s, reference, binding).imports);
    AfterReferences(s, reference, binding, r);
  }

  /** An import of the changed record, seen from the import it was made of. */
  lemma ImportStaysBound(rules: Rules, s: State, reference: Reference, binding: Import, i: Import)
    requires ValidImports(rules, s) && ValidReference(rules, s.missionId, s.correlationId, reference)
    requires NewBinding(rules, s, reference, binding) && i in s.imports + [binding]
    requires SameChainSameReference(s, reference)
    requires Covered(reference, i) ==> LocatorFits(rules, Rebind(reference, i))
    requires Rebind(reference, i) in After(s, reference, binding).imports
    ensures WellFormedImport(rules, Rebind(reference, i))
    ensures Bound(After(s, reference, binding).references, Rebind(reference, i))
  {
    if Covered(reference, i) {
      ReboundIsBound(rules, s.missionId, s.correlationId, reference, i);
      BinderRetained(s, reference, binding, reference, Rebind(reference, i));
    } else {
      assert i in s.imports;
      var r :| r in s.references && Binds(r, i);
      BinderRetained(s, reference, binding, r, i);
    }
  }

  lemma ImportsStayValid(rules: Rules, s: State, reference: Reference, binding: Import)
    requires ValidImports(rules, s) && ValidReference(rules, s.missionId, s.correlationId, reference)
    requires NewBinding(rules, s, reference, binding)
    requires SameChainSameReference(s, reference)
    requires PathsKept(rules, s.imports + [binding], reference)
    ensures ValidImports(rules, After(s, reference, binding))
  {
    hide ValidReference, WellFormedImport, RebindAll, Covered;
    var after := After(s, reference, binding);
    var sources := s.imports + [binding];
    AfterImports(s, reference, binding);
    forall k | 0 <= k < |sources|
      ensures WellFormedImport(rules, after.imports[k]) && Bound(after.references, after.imports[k])
    {
      assert after.imports[k] == Rebind(reference, sources[k]);
      ImportStaysBound(rules, s, reference, binding, sources[k]);
    }
    RolesStayDistinct(s, reference, binding);
  }

  lemma RolesStayDistinct(s: State, reference: Reference, binding: Import)
    requires DistinctImports(s.imports) && !HasRole(s.imports, binding.role)
    requires Covered(reference, binding)
    ensures DistinctImports(After(s, reference, binding).imports)
  {
    forall k | 0 <= k < |s.imports|
      ensures s.imports[k].role != binding.role
    {
      assert s.imports[k] in s.imports;
    }
  }

  lemma ReferencesStayValid(rules: Rules, s: State, reference: Reference, binding: Import)
    requires CollisionFree(rules) && ValidReferences(rules, s) && Covered(reference, binding)
    requires ValidReference(rules, s.missionId, s.correlationId, reference)
    ensures ValidReferences(rules, After(s, reference, binding))
    ensures var after := After(s, reference, binding); forall r | r in after.references :: Used(after.imports, r)
  {
    var after := After(s, reference, binding);
    AddedStaysDistinct(rules, s, reference);
    KeepDistinct(WithReference(s.references, reference), Digests(after.imports));
    forall r | r in after.references
      ensures ValidReference(rules, s.missionId, s.correlationId, r) && Used(after.imports, r)
    {
      AfterReferences(s, reference, binding, r);
      assert r in s.references || r == reference;
    }
  }

  /** No path moved and no chain changed: the record is valid again. */
  lemma ImportKeepsStateValid(rules: Rules, s: State, reference: Reference, binding: Import)
    requires CollisionFree(rules) && ValidState(rules, s) && s.missionId != "" && s.correlationId != ""
    requires ValidReference(rules, s.missionId, s.correlationId, reference)
    requires NewBinding(rules, s, reference, binding)
    requires SameChainSameReference(s, reference)
    requires PathsKept(rules, s.imports + [binding], reference)
    ensures ValidState(rules, After(s, reference, binding))
  {
    ReferencesStayValid(rules, s, reference, binding);
    ImportsStayValid(rules, s, reference, binding);
  }

  lemma ReferenceRetained(rules: Rules, s: State, reference: Reference, binding: Import)
    requires CollisionFree(rules)
    requires ValidReference(rules, s.missionId, s.correlationId, reference)
    requires NewBinding(rules, s, reference, binding)
    requires var after := After(s, reference, binding); ValidReferences(rules, after) && ValidImports(rules, after)
    ensures reference in WithReference(s.references, reference)
  {
    var after := After(s, reference, binding);
    AfterImports(s, reference, binding);
    var last := after.imports[|s.imports|];
    assert last in after.imports;
    var r :| r in after.references && Binds(r, last);
    SameDigestSameReference(rules, s.missionId, s.correlationId, r, reference);
    AfterReferences(s, reference, binding, reference);
  }

  lemma PresentMeansSameChain(s: State, reference: Reference)
    requires DistinctReferences(s.references) && reference in WithReference(s.references, reference)
    ensures SameChainSameReference(s, reference)
  {
    forall other | other in s.references && other.chainDigest == reference.chainDigest
      ensures other == reference
    {
      assert HasChain(s.references, reference.chainDigest);
      assert reference in s.references;
    }
  }

  lemma FittingMeansPathsKept(rules: Rules, s: State, reference: Reference, binding: Import)
    requires NewBinding(rules, s, reference, binding)
    requires forall i | i in After(s, reference, binding).imports :: WellFormedImport(rules, i)
    ensures PathsKept(rules, s.imports + [binding], reference)
  {
    var after, sources := After(s, reference, binding), s.imports + [binding];
    AfterImports(s, reference, binding);
    forall i | i in sources && Covered(reference, i)
      ensures LocatorFits(rules, Rebind(reference, i))
    {
      var k :| 0 <= k < |sources| && sources[k] == i;
      assert after.imports[k] == Rebind(reference, i);
      assert after.imports[k] in after.imports;
    }
  }

  /** Exactly when importing a new role through a valid reference succeeds. */
  lemma ImportSucceedsExactly(rules: Rules, s: State, reference: Reference, binding: Import)
    requires CollisionFree(rules) && ValidState(rules, s)
    requires ValidReference(rules, s.missionId, s.correlationId, reference)
    requires NewBinding(rules, s, reference, binding)
    ensures ValidState(rules, After(s, reference, binding)) <==>
      && s.missionId != "" && s.correlationId != ""
      && SameChainSameReference(s, reference)
      && PathsKept(rules, s.imports + [binding], reference)
  {
    if ValidState(rules, After(s, reference, binding)) {
      AfterImports(s, reference, binding);
      ReferenceRetained(rules, s, reference, binding);
      PresentMeansSameChain(s, reference);
      FittingMeansPathsKept(rules, s, reference, binding);
    }
    if s.missionId != "" && s.correlationId != "" && SameChainSameReference(s, reference)
       && PathsKept(rules, s.imports + [binding], reference) {
      ImportKeepsStateValid(rules, s, reference, binding);
    }
  }

  /** A live reference keeps a path exactly if it was made for that path. */
  lemma LivePathKept(rules: Rules, reference: Reference, i: Import)
    requires Covered(reference, i) && EntryFor(reference.entries, i.role).value.locatorState == Live
    requires EntryFor(reference.entries, i.role).value.archiveSource == ""
    ensures LocatorFits(rules, Rebind(reference, i)) <==>
      i.path != REDACTED_PATH
      && EntryFor(reference.entries, i.role).value.locatorDigest == rules.liveLocator(i.role, i.digest, i.path)
  {
  }

  /** The uncovered imports of the record are still bound by the reference `r`. */
  ghost predicate StillNeeded(s: State, reference: Reference, r: Reference) {
    exists i :: i in s.imports && !Covered(reference, i) && Binds(r, i)
  }

  /** An old reference is dropped exactly if it is not the new one and no import needs it any more. */
  lemma RetainedExactly(rules: Rules, s: State, reference: Reference, binding: Import, r: Reference)
    requires CollisionFree(rules) && ValidReferences(rules, s) && ValidImports(rules, s) && r in s.references
    requires ValidReference(rules, s.missionId, s.correlationId, reference)
    requires NewBinding(rules, s, reference, binding)
    ensures r in After(s, reference, binding).references <==> r == reference || StillNeeded(s, reference, r)
  {
    hide ValidReference, ValidReferences, ValidImports, RebindAll, StillNeeded;
    var after := After(s, reference, binding);
    AfterImports(s, reference, binding);
    AfterReferences(s, reference, binding, r);
    if r.referenceDigest in Digests(after.imports) && r != reference {
      NamedMeansNeeded(rules, s, reference, binding, r);
    }
    if r == reference { assert after.imports[|s.imports|].referenceDigest in Digests(after.imports); }
    if StillNeeded(s, reference, r) { NeededMeansNamed(s, reference, binding, r); }
  }

  lemma NeededMeansNamed(s: State, reference: Reference, binding: Import, r: Reference)
    requires Covered(reference, binding) && StillNeeded(s, reference, r)
    ensures r.referenceDigest in Digests(After(s, reference, binding).imports)
  {
    var after := After(s, reference, binding);
    var i :| i in s.imports && !Covered(reference, i) && Binds(r, i);
    var k :| 0 <= k < |s.imports| && s.imports[k] == i;
    assert after.imports[k] == i;
  }

  lemma NamedMeansNeeded(rules: Rules, s: State, reference: Reference, binding: Import, r: Reference)
    requires CollisionFree(rules) && ValidReferences(rules, s) && ValidImports(rules, s) && r in s.references
    requires ValidReference(rules, s.missionId, s.correlationId, reference)
    requires NewBinding(rules, s, reference, binding) && r != reference
    requires r.referenceDigest in Digests(After(s, reference, binding).imports)
    ensures StillNeeded(s, reference, r)
  {
    hide Covered, ValidReference, WellFormedImport, After, RebindAll;
    var after, sources := After(s, reference, binding), s.imports + [binding];
    AfterImports(s, reference, binding);
    var now :| now in after.imports && now.referenceDigest == r.referenceDigest;
    var k :| 0 <= k < |after.imports| && after.imports[k] == now;
    var was := sources[k];
    if Covered(reference, was) {
      SameDigestSameReference(rules, s.missionId, s.correlationId, r, reference);
    } else {
      assert was in s.imports;
      var owner :| owner in s.references && Binds(owner, was);
      SameDigestSameReference(rules, s.missionId, s.correlationId, r, owner);
    }
  }

  /** `now` is the same artifact as `was`, and moved to the new reference only if that covers it. */
  ghost predicate Follows(reference: Reference, was: Import, now: Import) {
    && now.role == was.role && now.digest == was.digest && now.path == was.path
    && (if Covered(reference, was)
        then now.referenceDigest == reference.referenceDigest && now.chainDigest == reference.chainDigest
        else now == was)
  }

  /**
   Nothing is lost: every import keeps its place, role, digest and path, an import the reference does
   not cover is not touched at all, and a reference is retained exactly if an import still needs it.
   */
  lemma NothingLost(rules: Rules, s: State, reference: Reference, binding: Import)
    requires CollisionFree(rules) && ValidState(rules, s)
    requires ValidReference(rules, s.missionId, s.correlationId, reference)
    requires NewBinding(rules, s, reference, binding) && SameChainSameReference(s, reference)
    ensures var after := After(s, reference, binding);
      && |after.imports| == |s.imports| + 1
      && (forall k | 0 <= k < |s.imports| :: Follows(reference, s.imports[k], after.imports[k]))
      && Follows(reference, binding, after.imports[|s.imports|])
      && reference in after.references
      && (forall r | r in s.references :: r in after.references <==> r == reference || StillNeeded(s, reference, r))
  {
    hide ValidReference, ValidImports, After;
    var after := After(s, reference, binding);
    EachFollows(s, reference, binding);
    assert after.imports[|s.imports|].referenceDigest in Digests(after.imports);
    AfterReferences(s, reference, binding, reference);
    forall r | r in s.references
      ensures r in after.references <==> r == reference || StillNeeded(s, reference, r)
    {
      RetainedExactly(rules, s, reference, binding, r);
    }
  }

  lemma EachFollows(s: State, reference: Reference, binding: Import)
    requires Covered(reference, binding)
    requires binding.chainDigest == reference.chainDigest && binding.referenceDigest == reference.referenceDigest
    ensures var after := After(s, reference, binding);
      && |after.imports| == |s.imports| + 1
      && (forall k | 0 <= k < |s.imports| :: Follows(reference, s.imports[k], after.imports[k]))
      && Follows(reference, binding, after.imports[|s.imports|])
  {
    AfterImports(s, reference, binding);
  }
}
