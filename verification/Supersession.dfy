/** The walk over the supersession graph: one error per cycle, each artifact visited once. */
module Supersession {
  import opened Basics

  type Edges = map<string, string>

  /** Where `n` supersession edges lead from `x`, or `None` if they end before. */
  function Follow(edges: Edges, x: string, n: nat): Option<string>
    decreases n
  {
    if n == 0 then Some(x) else if x in edges then Follow(edges, edges[x], n - 1) else None
  }

  ghost predicate Reaches(edges: Edges, x: string, y: string) {
    exists n: nat :: Follow(edges, x, n) == Some(y)
  }

  ghost predicate OnCycle(edges: Edges, x: string) {
    exists n: nat :: n > 0 && Follow(edges, x, n) == Some(x)
  }

  lemma {:induction false} FollowAdd(edges: Edges, x: string, n: nat, m: nat)
    requires Follow(edges, x, n).Some?
    ensures Follow(edges, x, n + m) == Follow(edges, Follow(edges, x, n).value, m)
    decreases n
  {
    if n > 0 { FollowAdd(edges, edges[x], n - 1, m); }
  }

  lemma {:induction false} RoundAndRound(edges: Edges, x: string, n: nat, times: nat)
    requires Follow(edges, x, n) == Some(x)
    ensures Follow(edges, x, times * n) == Some(x)
  {
    if times > 0 {
      RoundAndRound(edges, x, n, times - 1);
      FollowAdd(edges, x, (times - 1) * n, n);
      assert (times - 1) * n + n == times * n;
    }
  }

  /** What a cycle leads to leads back to it. */
  lemma {:induction false} CycleLeadsBack(edges: Edges, x: string, y: string)
    requires OnCycle(edges, x) && Reaches(edges, x, y)
    ensures Reaches(edges, y, x) && y in edges
  {
    var n: nat :| n > 0 && Follow(edges, x, n) == Some(x);
    var m: nat :| Follow(edges, x, m) == Some(y);
    RoundAndRound(edges, x, n, m + 1);
    assert (m + 1) * n >= m + 1 by { assert m * n >= m; }
    var back: nat := (m + 1) * n - m;
    FollowAdd(edges, x, m, back);
    assert Follow(edges, y, back) == Some(x);
  }

  /** Whatever is reached from a settled artifact and still has a predecessor is settled. */
  ghost predicate Closed(edges: Edges, settled: set<string>) {
    settled <= edges.Keys && forall x :: x in settled ==> edges[x] in settled || edges[x] !in edges
  }

  lemma {:induction false} ClosedReach(edges: Edges, settled: set<string>, x: string, n: nat, y: string)
    requires Closed(edges, settled) && x in settled && Follow(edges, x, n) == Some(y) && y in edges
    ensures y in settled
    decreases n
  {
    if n > 0 {
      if edges[x] in settled {
        ClosedReach(edges, settled, edges[x], n - 1, y);
      }
    }
  }

  /** The nodes a walk passed: each superseding the next, the last one leading to `current`. */
  ghost predicate Walk(edges: Edges, path: seq<string>, current: string) {
    && (forall i :: 0 <= i < |path| ==> path[i] in edges)
    && (forall i :: 0 <= i < |path| - 1 ==> edges[path[i]] == path[i + 1])
    && (path != [] ==> edges[path[|path| - 1]] == current)
  }

  lemma WalkStarts(edges: Edges, start: string)
    ensures Walk(edges, [], start)
  {}

  lemma WalkGrows(edges: Edges, path: seq<string>, current: string)
    requires Walk(edges, path, current) && current in edges
    ensures Walk(edges, path + [current], edges[current])
    ensures Members(path + [current]) == Members(path) + {current}
  {}

  lemma {:induction false} WalkLeadsOn(edges: Edges, path: seq<string>, current: string, i: nat)
    requires Walk(edges, path, current) && i < |path|
    ensures Follow(edges, path[i], |path| - i) == Some(current)
    decreases |path| - i
  {
    if i < |path| - 1 {
      WalkLeadsOn(edges, path, current, i + 1);
    } else {
      assert Follow(edges, edges[path[i]], 0) == Some(current);
    }
  }

  ghost predicate EachOnOwnCycle(edges: Edges, found: seq<string>) {
    && (forall e :: e in found ==> OnCycle(edges, e))
    && (forall i, j :: 0 <= i < |found| && 0 <= j < |found| && i != j ==> !Reaches(edges, found[i], found[j]))
  }

  /** Every cycle through one of the settled artifacts has an error. */
  ghost predicate Covered(edges: Edges, settled: set<string>, found: seq<string>) {
    forall x :: x in settled && OnCycle(edges, x) ==> exists e :: e in found && Reaches(edges, e, x)
  }

  ghost predicate WalkState(edges: Edges, settled: set<string>, found: seq<string>) {
    && Closed(edges, settled) && EachOnOwnCycle(edges, found) && Covered(edges, settled, found)
    && forall e :: e in found ==> e in settled
  }

  function Members(path: seq<string>): set<string> {
    set x | x in path
  }

  lemma PathSettles(edges: Edges, settled: set<string>, path: seq<string>, current: string)
    requires Closed(edges, settled) && Walk(edges, path, current)
    requires current !in edges || current in settled || current in path
    ensures Closed(edges, settled + Members(path))
  {
    var all := settled + Members(path);
    forall x | x in all ensures edges[x] in all || edges[x] !in edges {
      if x in path {
        var i :| 0 <= i < |path| && path[i] == x;
        if i < |path| - 1 { assert path[i + 1] in path; }
      }
    }
  }

  /** A walk that runs out or meets settled artifacts passed no cycle. */
  lemma {:induction false} NoNewCycle(edges: Edges, settled: set<string>, path: seq<string>, current: string)
    requires Closed(edges, settled) && Walk(edges, path, current)
    requires forall x :: x in path ==> x !in settled
    requires current !in edges || current in settled
    ensures forall x :: x in path ==> !OnCycle(edges, x)
  {
    forall x | x in path ensures !OnCycle(edges, x) {
      if OnCycle(edges, x) {
        var i :| 0 <= i < |path| && path[i] == x;
        WalkLeadsOn(edges, path, current, i);
        assert Reaches(edges, x, current);
        CycleLeadsBack(edges, x, current);
        var n: nat :| Follow(edges, current, n) == Some(x);
        ClosedReach(edges, settled, current, n, x);
      }
    }
  }

  lemma {:induction false} QuietWalk(
    edges: Edges, settled: set<string>, found: seq<string>, path: seq<string>, current: string)
    requires WalkState(edges, settled, found) && Walk(edges, path, current)
    requires forall x :: x in path ==> x !in settled
    requires current !in edges || current in settled
    ensures WalkState(edges, settled + Members(path), found)
  {
    PathSettles(edges, settled, path, current);
    NoNewCycle(edges, settled, path, current);
    hide OnCycle, Reaches, Walk, Closed, EachOnOwnCycle;
  }

  /** A walk that meets its own path passed exactly one cycle, and a new one. */
  lemma {:induction false} CyclingWalk(
    edges: Edges, settled: set<string>, found: seq<string>, path: seq<string>, current: string)
    requires WalkState(edges, settled, found) && Walk(edges, path, current)
    requires forall x :: x in path ==> x !in settled
    requires current in path
    ensures WalkState(edges, settled + Members(path), found + [current])
  {
    PathSettles(edges, settled, path, current);
    var j :| 0 <= j < |path| && path[j] == current;
    WalkLeadsOn(edges, path, current, j);
    assert OnCycle(edges, current);
    NewCycleIsOwn(edges, settled, found, current);
    forall x | x in settled + Members(path) && OnCycle(edges, x)
      ensures exists e :: e in found + [current] && Reaches(edges, e, x)
    {
      if x in path {
        var i :| 0 <= i < |path| && path[i] == x;
        WalkLeadsOn(edges, path, current, i);
        assert Reaches(edges, x, current);
        CycleLeadsBack(edges, x, current);
        assert current in found + [current];
      } else {
        var e :| e in found && Reaches(edges, e, x);
        assert e in found + [current];
      }
    }
    hide OnCycle, Reaches, Walk, Closed, EachOnOwnCycle;
  }

  lemma {:induction false} NewCycleIsOwn(edges: Edges, settled: set<string>, found: seq<string>, current: string)
    requires Closed(edges, settled) && EachOnOwnCycle(edges, found) && forall e :: e in found ==> e in settled
    requires OnCycle(edges, current) && current in edges && current !in settled
    ensures EachOnOwnCycle(edges, found + [current])
  {
    forall e | e in found ensures !Reaches(edges, e, current) && !Reaches(edges, current, e) {
      if Reaches(edges, e, current) {
        var n: nat :| Follow(edges, e, n) == Some(current);
        ClosedReach(edges, settled, e, n, current);
      }
      if Reaches(edges, current, e) {
        CycleLeadsBack(edges, current, e);
      }
    }
    hide OnCycle, Reaches;
    forall i, j | 0 <= i < |found| + 1 && 0 <= j < |found| + 1 && i != j
      ensures !Reaches(edges, (found + [current])[i], (found + [current])[j])
    {
      assert i < |found| ==> found[i] in found;
      assert j < |found| ==> found[j] in found;
    }
  }

  /** Report one artifact per supersession cycle; `taken` lists the artifacts the inner walks step from, in order. */
  method FindCycles(supersession: Edges, order: seq<string>) returns (errors: seq<string>, ghost taken: seq<string>)
    requires forall x :: x in order <==> x in supersession
    ensures EachOnOwnCycle(supersession, errors)
    ensures forall x :: OnCycle(supersession, x) ==> exists e :: e in errors && Reaches(supersession, e, x)
    ensures errors == [] <==> forall x :: !OnCycle(supersession, x)
    ensures Distinct(taken) && Members(taken) == supersession.Keys
  {
    hide OnCycle, Reaches, EachOnOwnCycle, WalkState, Follow, Walk;
    errors, taken := [], [];
    var settled: set<string> := {};
    NothingSettled(supersession);
    var k := 0;
    while k < |order|
      invariant 0 <= k <= |order|
      invariant WalkState(supersession, settled, errors)
      invariant forall i :: 0 <= i < k ==> order[i] in settled
      invariant Distinct(taken) && Members(taken) == settled
    {
      var visited: set<string> := {};
      var current := order[k];
      ghost var path: seq<string> := [];
      ghost var before := taken;
      ghost var quiet := true;
      WalkStarts(supersession, current);
      while current in supersession && current !in settled
        invariant quiet && WalkState(supersession, settled, errors) && Walk(supersession, path, current)
        invariant visited == Members(path)
        invariant forall x :: x in path ==> x !in settled
        invariant path == [] ==> current == order[k]
        invariant path != [] ==> path[0] == order[k]
        invariant visited <= supersession.Keys && taken == before + path && Distinct(taken)
        decreases supersession.Keys - visited
      {
        if current in visited {
          CyclingWalk(supersession, settled, errors, path, current);
          errors := errors + [current];
          quiet := false;
          break;
        }
        WalkGrows(supersession, path, current);
        path := path + [current];
        visited := visited + {current};
        taken := taken + [current];
        current := supersession[current];
      }
      if quiet {
        QuietWalk(supersession, settled, errors, path, current);
      }
      assert settled !! visited;
      settled := settled + visited;
      assert order[k] in settled by {
        assert order[k] in order;
        if path != [] { assert path[0] in path; }
      }
      k := k + 1;
    }
    AllSettled(supersession, settled, errors, order);
  }

  lemma NothingSettled(edges: Edges)
    ensures WalkState(edges, {}, [])
  {}

  lemma AllSettled(edges: Edges, settled: set<string>, errors: seq<string>, order: seq<string>)
    requires WalkState(edges, settled, errors)
    requires forall x :: x in order <==> x in edges
    requires forall i :: 0 <= i < |order| ==> order[i] in settled
    ensures settled == edges.Keys && EachOnOwnCycle(edges, errors)
    ensures forall x :: OnCycle(edges, x) ==> exists e :: e in errors && Reaches(edges, e, x)
    ensures errors == [] <==> forall x :: !OnCycle(edges, x)
  {
    hide Follow, Reaches;
    assert settled == edges.Keys;
    forall x | OnCycle(edges, x) ensures x in settled {
      CycleHasEdge(edges, x);
    }
    if errors != [] { assert errors[0] in errors; }
  }

  lemma CycleHasEdge(edges: Edges, x: string)
    requires OnCycle(edges, x)
    ensures x in edges
  {}
}
