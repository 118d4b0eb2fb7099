/**
 The inverted index over Mission timeline events, against a scan of all events
 (mission/internal/mission/event_index.go). Go's Unicode tables are parameters.
 */
module TimelineIndex {
  import opened Ordering
  import opened Wrappers

  datatype Event = Event(
    missionId: string, kind: string, sequence: int, status: string, route: string, phase: string,
    artifactKind: string, summary: string)

  datatype Match = Match(missionId: string, kind: string, sequence: int)

  datatype Term = Term(term: string, matches: seq<Match>)

  /** Lower case, rune by rune, and the runes that are letters or digits. */
  datatype Tables = Tables(lower: char -> char, letter: char -> bool)

  function MatchOf(e: Event): Match {
    Match(e.missionId, e.kind, e.sequence)
  }

  // ----- the terms of an event -----

  predicate IsTermChar(t: Tables, c: char) {
    t.letter(c) || c == '_' || c == '-' || c == '/'
  }

  function Lowered(t: Tables, s: string): string {
    if s == "" then "" else [t.lower(s[0])] + Lowered(t, s[1..])
  }

  function TextOf(t: Tables, e: Event): string {
    Lowered(t, e.missionId + " " + e.kind + " " + e.status + " " + e.route + " " + e.phase + " "
               + e.artifactKind + " " + e.summary)
  }

  /** The length of a string in UTF-8 bytes. */
  function Size(s: string): nat {
    if s == "" then 0
    else
      var n := s[0] as int;
      (if n < 0x80 then 1 else if n < 0x800 then 2 else if n < 0x1_0000 then 3 else 4) + Size(s[1..])
  }

  ghost predicate Whole(t: Tables, s: string, a: nat, b: nat)
    requires a <= b <= |s|
  {
    && (forall i | a <= i < b :: IsTermChar(t, s[i]))
    && (a == 0 || !IsTermChar(t, s[a - 1]))
    && (b == |s| || !IsTermChar(t, s[b]))
  }

  /** `w` is a maximal stretch of term characters, beginning at or after `from`. */
  ghost predicate IsRun(t: Tables, s: string, w: string, from: nat) {
    exists a: nat, b: nat :: from <= a < b <= |s| && Whole(t, s, a, b) && w == s[a..b]
  }

  /** The event, seen without the index: its text has this word, at least two bytes long. */
  ghost predicate HasTerm(t: Tables, e: Event, term: string) {
    IsRun(t, TextOf(t, e), term, 0) && Size(term) >= 2
  }

  /** Go's `strings.FieldsFunc`: the stretches of term characters, from left to right. */
  function Runs(t: Tables, s: string, start: nat, i: nat): seq<string>
    requires start <= i <= |s|
    decreases |s| - i
  {
    var here := if start < i then [s[start..i]] else [];
    if i == |s| then here
    else if IsTermChar(t, s[i]) then Runs(t, s, start, i + 1)
    else here + Runs(t, s, i + 1, i + 1)
  }

  lemma {:induction false} RunsExact(t: Tables, s: string, start: nat, i: nat, w: string)
    requires start <= i <= |s| && (forall k | start <= k < i :: IsTermChar(t, s[k]))
    requires start == 0 || !IsTermChar(t, s[start - 1])
    ensures w in Runs(t, s, start, i) <==> IsRun(t, s, w, start)
    decreases |s| - i
  {
    if i < |s| && IsTermChar(t, s[i]) {
      RunsExact(t, s, start, i + 1, w);
    } else {
      if start < i && w == s[start..i] {
        assert Whole(t, s, start, i);
      }
      if i < |s| { RunsExact(t, s, i + 1, i + 1, w); }
      if IsRun(t, s, w, start) {
        var a: nat, b: nat :| start <= a < b <= |s| && Whole(t, s, a, b) && w == s[a..b];
        FirstRun(t, s, start, i, a, b);
      }
    }
  }

  /** After a stretch that ends at `i`, a maximal stretch is either that one or lies behind it. */
  lemma FirstRun(t: Tables, s: string, start: nat, i: nat, a: nat, b: nat)
    requires start <= i <= |s| && (forall k | start <= k < i :: IsTermChar(t, s[k]))
    requires i == |s| || !IsTermChar(t, s[i])
    requires start <= a < b <= |s| && Whole(t, s, a, b)
    ensures (a == start < i == b) || i + 1 <= a
  {
    assert IsTermChar(t, s[a]) && IsTermChar(t, s[b - 1]);
  }

  method TermsForEvent(t: Tables, e: Event) returns (terms: seq<string>)
    ensures Ascending(terms, BY_TEXT)
    ensures forall term :: term in terms <==> HasTerm(t, e, term)
  {
    var fields := Runs(t, TextOf(t, e), 0, 0);
    var seen := {};
    terms := [];
    var i := 0;
    while i < |fields|
      invariant i <= |fields|
      invariant forall term :: term in terms <==> term in fields[..i] && Size(term) >= 2
      invariant forall term :: term in terms <==> term in seen
      invariant NoRepeat(terms)
    {
      var term := fields[i];
      assert fields[..i + 1] == fields[..i] + [term];
      if Size(term) >= 2 && term !in seen {
        seen := seen + {term};
        terms := terms + [term];
      }
      i := i + 1;
    }
    assert fields[..i] == fields;
    forall term { RunsExact(t, TextOf(t, e), 0, 0, term); }
    ByTextOrders();
    SortAscends(terms, BY_TEXT);
    terms := Sort(terms, BY_TEXT);
  }

  // ----- the order of matches -----

  predicate MatchBefore(a: Match, b: Match) {
    if a.missionId != b.missionId then Before(a.missionId, b.missionId)
    else if a.sequence != b.sequence then a.sequence < b.sequence
    else Before(a.kind, b.kind)
  }

  const BY_MATCH: (Match, Match) -> bool := (a, b) => MatchBefore(a, b)

  lemma ByMatchOrders()
    ensures StrictOrder(BY_MATCH)
  {
    ByTextOrders();
    forall a: Match, b: Match
      ensures MatchBefore(a, b) || a == b || MatchBefore(b, a)
      ensures !(MatchBefore(a, b) && MatchBefore(b, a))
    {
      BeforeTotal(a.missionId, b.missionId);
      BeforeTotal(a.kind, b.kind);
    }
    forall a: Match, b: Match, c: Match | MatchBefore(a, b) && MatchBefore(b, c)
      ensures MatchBefore(a, c)
    {
      MatchBeforeTransitive(a, b, c);
    }
  }

  lemma MatchBeforeTransitive(a: Match, b: Match, c: Match)
    requires MatchBefore(a, b) && MatchBefore(b, c)
    ensures MatchBefore(a, c)
  {
    BeforeTotal(a.missionId, b.missionId);
    if a.missionId != b.missionId && b.missionId != c.missionId {
      BeforeTransitive(a.missionId, b.missionId, c.missionId);
    }
    if a.kind != b.kind || b.kind != c.kind {
      if Before(a.kind, b.kind) && Before(b.kind, c.kind) { BeforeTransitive(a.kind, b.kind, c.kind); }
    }
  }

  // ----- the index and the scan -----

  /** The scan: some event of this mission, kind and sequence has the term. */
  ghost predicate Mentions(t: Tables, events: seq<Event>, term: string, m: Match) {
    exists e :: e in events && HasTerm(t, e, term) && MatchOf(e) == m
  }

  ghost predicate Listed(index: seq<Term>, term: string, m: Match) {
    exists k: nat :: k < |index| && index[k].term == term && m in index[k].matches
  }

  function Names(index: seq<Term>): (names: seq<string>)
    ensures |names| == |index| && forall k | 0 <= k < |index| :: names[k] == index[k].term
  {
    if index == [] then [] else [index[0].term] + Names(index[1..])
  }

  /** The index lists what the scan finds, with terms and matches strictly ascending. */
  ghost predicate Agrees(t: Tables, events: seq<Event>, index: seq<Term>) {
    && Ascending(Names(index), BY_TEXT)
    && (forall k | 0 <= k < |index| :: index[k].matches != [] && Ascending(index[k].matches, BY_MATCH))
    && (forall term, m :: Listed(index, term, m) <==> Mentions(t, events, term, m))
  }

  predicate Holds(terms: map<string, set<Match>>, term: string, m: Match) {
    term in terms && m in terms[term]
  }

  ghost predicate NoEmptyTerm(terms: map<string, set<Match>>) {
    forall term | term in terms :: terms[term] != {}
  }

  method AddEvent(terms: map<string, set<Match>>, names: seq<string>, found: Match)
    returns (r: map<string, set<Match>>)
    requires NoEmptyTerm(terms)
    ensures NoEmptyTerm(r)
    ensures forall term, m :: Holds(r, term, m) <==> Holds(terms, term, m) || (term in names && m == found)
  {
    r := terms;
    var i := 0;
    while i < |names|
      invariant i <= |names| && NoEmptyTerm(r)
      invariant forall term, m ::
        Holds(r, term, m) <==> Holds(terms, term, m) || (term in names[..i] && m == found)
    {
      var name := names[i];
      assert names[..i + 1] == names[..i] + [name];
      var known := if name in r then r[name] else {};
      r := r[name := known + {found}];
      i := i + 1;
    }
    assert names[..i] == names;
  }

  method CollectTerms(t: Tables, events: seq<Event>) returns (terms: map<string, set<Match>>)
    ensures NoEmptyTerm(terms)
    ensures forall term, m :: Holds(terms, term, m) <==> Mentions(t, events, term, m)
  {
    terms := map[];
    var i := 0;
    while i < |events|
      invariant i <= |events| && NoEmptyTerm(terms)
      invariant forall term, m :: Holds(terms, term, m) <==> Mentions(t, events[..i], term, m)
    {
      var names := TermsForEvent(t, events[i]);
      terms := AddEvent(terms, names, MatchOf(events[i]));
      forall term, m
        ensures Mentions(t, events[..i + 1], term, m) <==>
          Mentions(t, events[..i], term, m) || (HasTerm(t, events[i], term) && m == MatchOf(events[i]))
      {
        MentionsGrow(t, events, i, term, m);
      }
      i := i + 1;
    }
    assert events[..i] == events;
  }

  lemma MentionsGrow(t: Tables, events: seq<Event>, i: nat, term: string, m: Match)
    requires i < |events|
    ensures Mentions(t, events[..i + 1], term, m) <==>
      Mentions(t, events[..i], term, m) || (HasTerm(t, events[i], term) && m == MatchOf(events[i]))
  {
    assert events[..i + 1] == events[..i] + [events[i]];
    assert events[i] in events[..i + 1];
  }

  /** The first names, each with all its matches in order. */
  ghost predicate Filed(index: seq<Term>, names: seq<string>, terms: map<string, set<Match>>) {
    && |index| <= |names|
    && (forall k | 0 <= k < |index| :: names[k] in terms && index[k].term == names[k])
    && (forall k | 0 <= k < |index| :: index[k].matches != [] && Ascending(index[k].matches, BY_MATCH))
    && (forall k, m | 0 <= k < |index| :: m in index[k].matches <==> m in terms[names[k]])
  }

  lemma FileAnother(index: seq<Term>, names: seq<string>, terms: map<string, set<Match>>, matches: seq<Match>)
    requires Filed(index, names, terms) && |index| < |names| && names[|index|] in terms
    requires matches != [] && Ascending(matches, BY_MATCH)
    requires forall m :: m in matches <==> m in terms[names[|index|]]
    ensures Filed(index + [Term(names[|index|], matches)], names, terms)
  {
    hide Ascending;
  }

  /** Terms and matches in order, in whatever order the two maps are iterated. */
  method ListTerms(terms: map<string, set<Match>>) returns (index: seq<Term>)
    requires NoEmptyTerm(terms)
    ensures Ascending(Names(index), BY_TEXT)
    ensures forall k | 0 <= k < |index| :: index[k].matches != [] && Ascending(index[k].matches, BY_MATCH)
    ensures forall term, m :: Listed(index, term, m) <==> Holds(terms, term, m)
  {
    hide Ascending, Listed, Holds;
    ByTextOrders();
    ByMatchOrders();
    var names := SortedElements(terms.Keys, BY_TEXT);
    index := [];
    var i := 0;
    while i < |names|
      invariant i <= |names| && |index| == i && Filed(index, names, terms)
    {
      assert names[i] in names;
      var matches := SortedElements(terms[names[i]], BY_MATCH);
      FileAnother(index, names, terms, matches);
      index := index + [Term(names[i], matches)];
      i := i + 1;
    }
    assert Names(index) == names;
    forall term, m { ListedIfHeld(index, names, terms, term, m); }
  }

  lemma ListedIfHeld(index: seq<Term>, names: seq<string>, terms: map<string, set<Match>>, term: string, m: Match)
    requires |index| == |names| && (forall name :: name in names <==> name in terms)
    requires Filed(index, names, terms)
    ensures Listed(index, term, m) <==> Holds(terms, term, m)
  {
    if Holds(terms, term, m) {
      assert term in names;
      var k :| 0 <= k < |names| && names[k] == term;
    }
  }

  method BuildTerms(t: Tables, events: seq<Event>) returns (index: seq<Term>)
    ensures Agrees(t, events, index)
  {
    var terms := CollectTerms(t, events);
    index := ListTerms(terms);
  }

  // ----- the two indexes and their digests -----

  datatype EventIndex = EventIndex(
    schema: string, version: string, digest: string, missionCount: int, totalEvents: int, events: seq<Event>)

  datatype QueryIndex = QueryIndex(
    schema: string, version: string, eventIndexDigest: string, missionCount: int, eventCount: int, termCount: nat,
    terms: seq<Term>, digest: string)

  /** The digests over an index whose own digest is blank; times and counters of the build are not part of them. */
  datatype Digests = Digests(ofEvents: EventIndex -> string, ofQuery: QueryIndex -> string)

  predicate HasDigestPrefix(s: string) {
    |s| >= 7 && s[..7] == "sha256:"
  }

  predicate ValidEventIndex(d: Digests, index: EventIndex) {
    && index.schema == "ao.mission.event-index.v0.2" && index.version == "v0.2"
    && HasDigestPrefix(index.digest) && index.digest == d.ofEvents(index.(digest := ""))
  }

  predicate ValidQueryIndex(d: Digests, index: QueryIndex) {
    && index.schema == "ao.mission.timeline-query-index.v0.1" && index.version == "v0.1"
    && HasDigestPrefix(index.eventIndexDigest) && HasDigestPrefix(index.digest)
    && index.digest == d.ofQuery(index.(digest := ""))
  }

  /** Refuses exactly an event index whose digest does not fit; what it builds passes its own validation. */
  method BuildQueryIndex(t: Tables, d: Digests, source: EventIndex) returns (r: Option<QueryIndex>)
    ensures r.Some? <==> ValidEventIndex(d, source)
    ensures r.Some? ==>
      && Agrees(t, source.events, r.value.terms) && r.value.termCount == |r.value.terms|
      && r.value.eventIndexDigest == source.digest && r.value.missionCount == source.missionCount
      && r.value.eventCount == source.totalEvents
      && (ValidQueryIndex(d, r.value) <==> HasDigestPrefix(r.value.digest))
  {
    if !ValidEventIndex(d, source) { return None; }
    var terms := BuildTerms(t, source.events);
    var blank := QueryIndex(
      "ao.mission.timeline-query-index.v0.1", "v0.1", source.digest, source.missionCount, source.totalEvents,
      |terms|, terms, "");
    var index := blank.(digest := d.ofQuery(blank));
    assert index.(digest := "") == blank;
    r := Some(index);
  }

  // ----- there is only one such index -----

  lemma ListedAt(t: Tables, events: seq<Event>, index: seq<Term>, k: nat, m: Match)
    requires Agrees(t, events, index) && k < |index|
    ensures m in index[k].matches <==> Mentions(t, events, index[k].term, m)
  {
    ByTextOrders();
    if Listed(index, index[k].term, m) {
      var j: nat :| j < |index| && index[j].term == index[k].term && m in index[j].matches;
      var names := Names(index);
      assert names[j] == names[k];
      assert !BY_TEXT(names[j], names[k]) && !BY_TEXT(names[k], names[j]);
      assert j == k;
    }
  }

  lemma NamedIfMentioned(t: Tables, events: seq<Event>, index: seq<Term>, name: string)
    requires Agrees(t, events, index)
    ensures name in Names(index) <==> exists m :: Mentions(t, events, name, m)
  {
    if name in Names(index) {
      var k :| 0 <= k < |Names(index)| && Names(index)[k] == name;
      ListedAt(t, events, index, k, index[k].matches[0]);
    }
    if m :| Mentions(t, events, name, m) {
      assert Listed(index, name, m);
      var k: nat :| k < |index| && index[k].term == name && m in index[k].matches;
      assert Names(index)[k] == name;
    }
  }

  lemma SameScan(t: Tables, before: seq<Event>, after: seq<Event>, term: string, m: Match)
    requires forall e :: e in before <==> e in after
    ensures Mentions(t, before, term, m) <==> Mentions(t, after, term, m)
  {
  }

  /** Neither the order of the events, nor repeated events, nor map iteration order shows in the index. */
  lemma IndexUnique(t: Tables, before: seq<Event>, after: seq<Event>, a: seq<Term>, b: seq<Term>)
    requires forall e :: e in before <==> e in after
    requires Agrees(t, before, a) && Agrees(t, after, b)
    ensures a == b
  {
    ByTextOrders();
    forall name
      ensures name in Names(a) <==> name in Names(b)
    {
      NamedIfMentioned(t, before, a, name);
      NamedIfMentioned(t, after, b, name);
      forall m { SameScan(t, before, after, name, m); }
    }
    AscendingUnique(Names(a), Names(b), BY_TEXT);
    assert |a| == |Names(a)| == |b|;
    forall k | 0 <= k < |a|
      ensures a[k] == b[k]
    {
      assert Names(a)[k] == Names(b)[k];
      SameMatches(t, before, after, a, b, k);
    }
  }

  lemma SameMatches(t: Tables, before: seq<Event>, after: seq<Event>, a: seq<Term>, b: seq<Term>, k: nat)
    requires forall e :: e in before <==> e in after
    requires Agrees(t, before, a) && Agrees(t, after, b) && k < |a| && k < |b| && a[k].term == b[k].term
    ensures a[k].matches == b[k].matches
  {
    ByMatchOrders();
    forall m
      ensures m in a[k].matches <==> m in b[k].matches
    {
      ListedAt(t, before, a, k, m);
      ListedAt(t, after, b, k, m);
      SameScan(t, before, after, a[k].term, m);
    }
    AscendingUnique(a[k].matches, b[k].matches, BY_MATCH);
  }

  // ----- counting -----

  datatype Row = Row(term: string, found: Match)

  /** The index flattened, one mission's matches only. */
  function RowsOf(term: string, matches: seq<Match>, missionId: string): seq<Row> {
    if matches == [] then []
    else
      (if matches[0].missionId == missionId then [Row(term, matches[0])] else [])
      + RowsOf(term, matches[1..], missionId)
  }

  function Rows(index: seq<Term>, missionId: string): seq<Row> {
    if index == [] then [] else RowsOf(index[0].term, index[0].matches, missionId) + Rows(index[1..], missionId)
  }

  method CountMatches(index: seq<Term>, missionId: string) returns (count: nat)
    ensures count == |Rows(index, missionId)|
  {
    count := 0;
    var i := 0;
    while i < |index|
      invariant i <= |index|
      invariant count + |Rows(index[i..], missionId)| == |Rows(index, missionId)|
    {
      var matches := index[i].matches;
      assert index[i..][1..] == index[i + 1..];
      ghost var rest := |Rows(index[i + 1..], missionId)|;
      var j := 0;
      while j < |matches|
        invariant j <= |matches|
        invariant count + |RowsOf(index[i].term, matches[j..], missionId)| + rest == |Rows(index, missionId)|
      {
        assert matches[j..][1..] == matches[j + 1..];
        if matches[j].missionId == missionId { count := count + 1; }
        j := j + 1;
      }
      i := i + 1;
    }
  }

  function SignedDecimal(n: int): string {
    if n < 0 then "-" + Decimal(-n) else Decimal(n)
  }

  const NUL: char := '\0'

  function Key(r: Row): string {
    r.term + [NUL] + r.found.kind + [NUL] + SignedDecimal(r.found.sequence)
  }

  /** How many rows have a key that an earlier row, or `seen`, has too. */
  function Repeats(rows: seq<Row>, seen: set<string>): nat {
    if rows == [] then 0
    else (if Key(rows[0]) in seen then 1 else 0) + Repeats(rows[1..], seen + {Key(rows[0])})
  }

  /** The matches of one term, with the keys that earlier ones have. */
  method CountTermDuplicates(
    term: string, matches: seq<Match>, missionId: string, known: set<string>, ghost rest: seq<Row>)
    returns (duplicates: nat, seen: set<string>)
    ensures duplicates + Repeats(rest, seen) == Repeats(RowsOf(term, matches, missionId) + rest, known)
  {
    seen, duplicates := known, 0;
    ghost var total := Repeats(RowsOf(term, matches, missionId) + rest, known);
    var j := 0;
    while j < |matches|
      invariant j <= |matches|
      invariant duplicates + Repeats(RowsOf(term, matches[j..], missionId) + rest, seen) == total
    {
      assert matches[j..][1..] == matches[j + 1..];
      if matches[j].missionId == missionId {
        var row := Row(term, matches[j]);
        RepeatsStep(row, RowsOf(term, matches[j + 1..], missionId), rest, seen);
        if Key(row) in seen { duplicates := duplicates + 1; }
        seen := seen + {Key(row)};
      } else {
        assert [] + RowsOf(term, matches[j + 1..], missionId) == RowsOf(term, matches[j + 1..], missionId);
      }
      j := j + 1;
    }
    assert [] + rest == rest;
  }

  method CountDuplicates(index: seq<Term>, missionId: string) returns (duplicates: nat)
    ensures duplicates == Repeats(Rows(index, missionId), {})
  {
    var seen := {};
    duplicates := 0;
    var i := 0;
    while i < |index|
      invariant i <= |index|
      invariant duplicates + Repeats(Rows(index[i..], missionId), seen) == Repeats(Rows(index, missionId), {})
    {
      assert index[i..][1..] == index[i + 1..];
      var more;
      more, seen := CountTermDuplicates(
        index[i].term, index[i].matches, missionId, seen, Rows(index[i + 1..], missionId));
      duplicates := duplicates + more;
      i := i + 1;
    }
  }

  lemma RepeatsStep(first: Row, more: seq<Row>, rest: seq<Row>, seen: set<string>)
    ensures Repeats([first] + more + rest, seen) ==
      (if Key(first) in seen then 1 else 0) + Repeats(more + rest, seen + {Key(first)})
  {
    assert ([first] + more + rest)[1..] == more + rest;
  }

  // ----- no row twice -----

  lemma {:induction false} RowsOfExact(term: string, matches: seq<Match>, missionId: string, r: Row)
    ensures r in RowsOf(term, matches, missionId) <==>
      r.term == term && r.found in matches && r.found.missionId == missionId
  {
    if matches != [] { RowsOfExact(term, matches[1..], missionId, r); }
  }

  lemma {:induction false} RowsListed(index: seq<Term>, missionId: string, r: Row)
    ensures r in Rows(index, missionId) <==> Listed(index, r.term, r.found) && r.found.missionId == missionId
  {
    if index != [] {
      RowsOfExact(index[0].term, index[0].matches, missionId, r);
      RowsListed(index[1..], missionId, r);
      if Listed(index, r.term, r.found) {
        var k: nat :| k < |index| && index[k].term == r.term && r.found in index[k].matches;
        if k > 0 { assert index[1..][k - 1] == index[k]; }
      }
      if Listed(index[1..], r.term, r.found) {
        var k: nat :| k < |index[1..]| && index[1..][k].term == r.term && r.found in index[1..][k].matches;
        assert index[k + 1].term == r.term;
      }
    }
  }

  lemma JoinNoRepeat<T>(a: seq<T>, b: seq<T>)
    requires NoRepeat(a) && NoRepeat(b) && forall x | x in a :: x !in b
    ensures NoRepeat(a + b)
  {
    var both := a + b;
    forall i, j | 0 <= i < j < |both|
      ensures both[i] != both[j]
    {
      if i < |a| <= j { assert both[i] in a && both[j] in b; }
    }
  }

  lemma {:induction false} RowsOfNoRepeat(term: string, matches: seq<Match>, missionId: string)
    requires Ascending(matches, BY_MATCH)
    ensures NoRepeat(RowsOf(term, matches, missionId))
  {
    if matches != [] {
      var rest := RowsOf(term, matches[1..], missionId);
      RowsOfNoRepeat(term, matches[1..], missionId);
      ByMatchOrders();
      var first := Row(term, matches[0]);
      forall r | r in rest
        ensures r != first
      {
        RowsOfExact(term, matches[1..], missionId, r);
        var k :| 0 <= k < |matches[1..]| && matches[1..][k] == r.found;
        assert BY_MATCH(matches[0], matches[k + 1]) && !BY_MATCH(matches[0], matches[0]);
      }
      JoinNoRepeat([first], rest);
      assert RowsOf(term, matches, missionId) == [first] + rest || RowsOf(term, matches, missionId) == rest;
    }
  }

  ghost predicate Tidy(index: seq<Term>) {
    Ascending(Names(index), BY_TEXT) && forall k | 0 <= k < |index| :: Ascending(index[k].matches, BY_MATCH)
  }

  lemma {:induction false} RowsNoRepeat(index: seq<Term>, missionId: string)
    requires Tidy(index)
    ensures NoRepeat(Rows(index, missionId))
  {
    if index != [] {
      var first, rest := RowsOf(index[0].term, index[0].matches, missionId), Rows(index[1..], missionId);
      TidyRest(index);
      RowsNoRepeat(index[1..], missionId);
      RowsOfNoRepeat(index[0].term, index[0].matches, missionId);
      forall r | r in first
        ensures r !in rest
      {
        RowsOfExact(index[0].term, index[0].matches, missionId, r);
        RowsListed(index[1..], missionId, r);
        if r in rest { FirstTermUnlisted(index, r.found); }
      }
      JoinNoRepeat(first, rest);
    }
  }

  lemma TidyRest(index: seq<Term>)
    requires Tidy(index) && index != []
    ensures Tidy(index[1..])
  {
    assert Names(index)[1..] == Names(index[1..]);
  }

  lemma FirstTermUnlisted(index: seq<Term>, m: Match)
    requires Tidy(index) && index != []
    ensures !Listed(index[1..], index[0].term, m)
  {
    ByTextOrders();
    var first := index[0].term;
    forall k | 0 <= k < |index[1..]|
      ensures index[1..][k].term != first
    {
      assert BY_TEXT(Names(index)[0], Names(index)[k + 1]) && !BY_TEXT(first, first);
    }
  }

  // ----- the key of a row -----

  lemma DecimalPlain(n: int)
    ensures NUL !in SignedDecimal(n)
    ensures n < 0 <==> SignedDecimal(n)[0] == '-'
  {
    var digits := Decimal(if n < 0 then -n else n);
    DecimalCanonical(if n < 0 then -n else n);
    assert forall i | 0 <= i < |digits| :: IsDigit(digits[i]);
  }

  lemma DecimalInjective(m: int, n: int)
    requires SignedDecimal(m) == SignedDecimal(n)
    ensures m == n
  {
    DecimalPlain(m);
    DecimalPlain(n);
    DecimalCanonical(if m < 0 then -m else m);
    DecimalCanonical(if n < 0 then -n else n);
    if m < 0 {
      assert SignedDecimal(m)[1..] == Decimal(-m) && SignedDecimal(n)[1..] == Decimal(-n);
    }
  }

  /** Without NUL in the first part, the first NUL ends it. */
  lemma SplitFirst(a: string, x: string, b: string, y: string)
    requires NUL !in a && NUL !in b && a + [NUL] + x == b + [NUL] + y
    ensures a == b && x == y
  {
    var s, r := a + [NUL] + x, b + [NUL] + y;
    assert s[|a|] == NUL && r[|b|] == NUL;
    assert forall i | 0 <= i < |a| :: s[i] == a[i] != NUL;
    assert forall i | 0 <= i < |b| :: r[i] == b[i] != NUL;
    assert s[..|a|] == a && r[..|b|] == b;
    assert s[|a| + 1..] == x && r[|b| + 1..] == y;
  }

  /** Without NUL in the last part, the last NUL begins it. */
  lemma SplitLast(a: string, x: string, b: string, y: string)
    requires NUL !in x && NUL !in y && a + [NUL] + x == b + [NUL] + y
    ensures a == b && x == y
  {
    var s, r := a + [NUL] + x, b + [NUL] + y;
    assert s[|a|] == NUL && r[|b|] == NUL;
    assert forall i | |a| < i < |s| :: s[i] == x[i - |a| - 1] && s[i] != NUL;
    assert forall i | |b| < i < |r| :: r[i] == y[i - |b| - 1] && r[i] != NUL;
    assert s[..|a|] == a && r[..|b|] == b;
    assert s[|a| + 1..] == x && r[|b| + 1..] == y;
  }

  /** Two rows of one mission with one key are one row, even if a kind contains NUL. */
  lemma KeyInjective(a: Row, b: Row)
    requires NUL !in a.term && NUL !in b.term && a.found.missionId == b.found.missionId && Key(a) == Key(b)
    ensures a == b
  {
    var x := a.found.kind + [NUL] + SignedDecimal(a.found.sequence);
    var y := b.found.kind + [NUL] + SignedDecimal(b.found.sequence);
    assert Key(a) == a.term + [NUL] + x && Key(b) == b.term + [NUL] + y;
    SplitFirst(a.term, x, b.term, y);
    DecimalPlain(a.found.sequence);
    DecimalPlain(b.found.sequence);
    SplitLast(a.found.kind, SignedDecimal(a.found.sequence), b.found.kind, SignedDecimal(b.found.sequence));
    DecimalInjective(a.found.sequence, b.found.sequence);
  }

  lemma {:induction false} NoRepeatedKeys(rows: seq<Row>, seen: set<string>)
    requires forall i, j | 0 <= i < j < |rows| :: Key(rows[i]) != Key(rows[j])
    requires forall i | 0 <= i < |rows| :: Key(rows[i]) !in seen
    ensures Repeats(rows, seen) == 0
  {
    if rows != [] { NoRepeatedKeys(rows[1..], seen + {Key(rows[0])}); }
  }

  lemma TermsPlain(t: Tables, e: Event, term: string)
    requires !t.letter(NUL) && HasTerm(t, e, term)
    ensures NUL !in term
  {
    var s := TextOf(t, e);
    var a: nat, b: nat :| 0 <= a < b <= |s| && Whole(t, s, a, b) && term == s[a..b];
    forall i | 0 <= i < |term|
      ensures term[i] != NUL
    {
      assert IsTermChar(t, s[a + i]);
    }
  }

  /** One mission's rows are the distinct pairs the scan finds, each once; none is counted a duplicate. */
  lemma CountsExact(t: Tables, events: seq<Event>, index: seq<Term>, missionId: string)
    requires Agrees(t, events, index) && !t.letter(NUL)
    ensures NoRepeat(Rows(index, missionId))
    ensures forall r :: r in Rows(index, missionId) <==>
      Mentions(t, events, r.term, r.found) && r.found.missionId == missionId
    ensures Repeats(Rows(index, missionId), {}) == 0
  {
    var rows := Rows(index, missionId);
    RowsNoRepeat(index, missionId);
    forall r: Row
      ensures r in rows <==> Mentions(t, events, r.term, r.found) && r.found.missionId == missionId
    {
      RowsListed(index, missionId, r);
    }
    forall r | r in rows
      ensures NUL !in r.term
    {
      var e :| e in events && HasTerm(t, e, r.term) && MatchOf(e) == r.found;
      TermsPlain(t, e, r.term);
    }
    forall i, j | 0 <= i < j < |rows|
      ensures Key(rows[i]) != Key(rows[j])
    {
      assert rows[i] in rows && rows[j] in rows;
      if Key(rows[i]) == Key(rows[j]) { KeyInjective(rows[i], rows[j]); }
    }
    NoRepeatedKeys(rows, {});
  }
}
