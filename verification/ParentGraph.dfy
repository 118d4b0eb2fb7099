/**
 Cycle detection over the parent links of a correlation chain
 (mission/internal/mission/correlation_chain.go, `validateCorrelationParentGraph`).
 A role without an entry, and an entry without a parent, both end the walk.
 */
module ParentGraph {

  type Links = map<string, string>

  function Parent(links: Links, role: string): string {
    if role in links then links[role] else ""
  }

  /** The role reached after `n` parent steps; once there is no parent the walk stays there. */
  function Climb(links: Links, role: string, n: nat): string {
    if n == 0 then role
    else
      var below := Climb(links, role, n - 1);
      if below == "" then "" else Parent(links, below)
  }

  /** Following parents from `role` comes back to `role`. */
  ghost predicate Returns(links: Links, role: string) {
    exists n: nat :: n > 0 && role != "" && Climb(links, role, n) == role
  }

  ghost predicate Acyclic(links: Links) {
    forall role :: !Returns(links, role)
  }

  /** Following parents from `role` comes to an end. */
  ghost predicate Ends(links: Links, role: string) {
    exists n: nat :: Climb(links, role, n) == ""
  }

  // ----- climbing -----

  lemma {:induction false} ClimbAdds(links: Links, role: string, m: nat, n: nat)
    requires Climb(links, role, m) != "" || n == 0
    ensures Climb(links, role, m + n) == Climb(links, Climb(links, role, m), n)
  {
    if n > 0 { ClimbAdds(links, role, m, n - 1); }
  }

  lemma {:induction false} EndStays(links: Links, role: string, m: nat, n: nat)
    requires m <= n && Climb(links, role, m) == ""
    ensures Climb(links, role, n) == ""
  {
    if m < n { EndStays(links, role, m, n - 1); }
  }

  /** A walk that ends cannot come back. */
  lemma {:induction false} EndsNeverReturns(links: Links, role: string, end: nat, n: nat)
    requires Climb(links, role, end) == "" && role != "" && n > 0 && Climb(links, role, n) == role
    ensures false
    decreases end
  {
    if end <= n {
      EndStays(links, role, end, n);
    } else {
      ClimbAdds(links, role, n, end - n);
      EndsNeverReturns(links, role, end - n, n);
    }
  }

  lemma ParentOfEndingEnds(links: Links, role: string)
    requires role != "" && Ends(links, Parent(links, role))
    ensures Ends(links, role)
  {
    var n: nat :| Climb(links, Parent(links, role), n) == "";
    assert Climb(links, role, 1) == Parent(links, role);
    if Parent(links, role) == "" {
      assert Climb(links, role, 1) == "";
    } else {
      ClimbAdds(links, role, 1, n);
      assert Climb(links, role, 1 + n) == "";
    }
  }

  lemma AllEndMeansAcyclic(links: Links)
    requires forall role | role in links && role != "" :: Ends(links, role)
    ensures Acyclic(links)
  {
    forall role | Returns(links, role)
      ensures false
    {
      var n: nat :| n > 0 && role != "" && Climb(links, role, n) == role;
      if role !in links { assert Climb(links, role, 1) == ""; }
      var end: nat :| Climb(links, role, end) == "";
      EndsNeverReturns(links, role, end, n);
    }
  }

  // ----- the search -----

  const VISITING: nat := 1
  const VISITED: nat := 2

  function Roles(links: Links): set<string> {
    links.Keys + links.Values
  }

  /** The roles being visited, each the parent of the one before it. */
  ghost predicate IsPath(links: Links, path: seq<string>) {
    forall i | 0 < i < |path| :: path[i] != "" && Parent(links, path[i - 1]) == path[i]
  }

  ghost predicate SearchState(links: Links, states: map<string, nat>, path: seq<string>) {
    && IsPath(links, path)
    && (forall role | role in states :: states[role] == VISITING || states[role] == VISITED)
    && (forall role :: (role in states && states[role] == VISITING) <==> role in path)
    && (forall role | role in states && states[role] == VISITED && role != "" :: Ends(links, role))
  }

  lemma {:induction false} PathClimbs(links: Links, path: seq<string>, j: nat, n: nat)
    requires IsPath(links, path) && j + n < |path| && path[j] != ""
    ensures Climb(links, path[j], n) == path[j + n]
  {
    if n > 0 { PathClimbs(links, path, j, n - 1); }
  }

  /** Meeting a role that is being visited closes a cycle. */
  lemma MeetingClosesCycle(links: Links, path: seq<string>, role: string)
    requires IsPath(links, path) && role != "" && role in path && Parent(links, path[|path| - 1]) == role
    ensures Returns(links, role)
  {
    var j :| 0 <= j < |path| && path[j] == role;
    var n := |path| - 1 - j;
    PathClimbs(links, path, j, n);
    assert path[|path| - 1] != "";
    assert Climb(links, role, n + 1) == role;
  }

  lemma PushState(links: Links, states: map<string, nat>, path: seq<string>, role: string)
    requires SearchState(links, states, path) && role !in states
    requires path != [] ==> role != "" && Parent(links, path[|path| - 1]) == role
    ensures SearchState(links, states[role := VISITING], path + [role])
  {
  }

  lemma PopState(links: Links, states: map<string, nat>, path: seq<string>, role: string)
    requires SearchState(links, states, path + [role]) && role !in path
    requires role != "" ==> Ends(links, role)
    ensures SearchState(links, states[role := VISITED], path)
  {
    assert forall i | 0 <= i < |path| :: (path + [role])[i] == path[i];
    forall r
      ensures (r in states[role := VISITED] && states[role := VISITED][r] == VISITING) <==> r in path
    {
      assert r in path + [role] <==> r in path || r == role;
    }
  }

  class Search {
    const links: Links
    var states: map<string, nat>

    constructor (links: Links)
      ensures this.links == links && states == map[]
    {
      this.links, this.states := links, map[];
    }

    /** Visits one role and, first, its parents; fails exactly on a cycle. */
    method Visit(role: string, ghost path: seq<string>) returns (ok: bool)
      requires SearchState(links, states, path)
      requires role in Roles(links)
      requires path != [] ==> role != "" && Parent(links, path[|path| - 1]) == role
      modifies this
      decreases Roles(links) - states.Keys
      ensures old(states).Keys <= states.Keys
      ensures ok ==> SearchState(links, states, path) && role in states && states[role] == VISITED
      ensures ok ==> forall r | r in old(states) && old(states)[r] == VISITED :: states[r] == VISITED
      ensures !ok ==> exists r :: Returns(links, r)
    {
      if role in states && states[role] == VISITING {
        MeetingClosesCycle(links, path, role);
        return false;
      }
      if role in states && states[role] == VISITED { return true; }
      PushState(links, states, path, role);
      states := states[role := VISITING];
      assert role in Roles(links) - old(states).Keys;
      ghost var longer := path + [role];
      var parent := Parent(links, role);
      if parent != "" {
        var above := Visit(parent, longer);
        if !above { return false; }
      }
      if role != "" {
        if parent == "" { assert Climb(links, parent, 0) == ""; }
        ParentOfEndingEnds(links, role);
      }
      PopState(links, states, path, role);
      states := states[role := VISITED];
      return true;
    }

    /** Visits every role, in whatever order the map is iterated. */
    method VisitAll() returns (ok: bool)
      requires states == map[]
      modifies this
      ensures ok <==> Acyclic(links)
    {
      var todo := links.Keys;
      while todo != {}
        invariant todo <= links.Keys && SearchState(links, states, [])
        invariant forall role | role in links && role !in todo :: role in states && states[role] == VISITED
        decreases todo
      {
        var role :| role in todo;
        ok := Visit(role, []);
        if !ok { return; }
        todo := todo - {role};
      }
      AllEndMeansAcyclic(links);
      ok := true;
    }
  }

  method ValidateCorrelationParentGraph(links: Links) returns (ok: bool)
    ensures ok <==> Acyclic(links)
  {
    var search := new Search(links);
    ok := search.VisitAll();
  }
}
