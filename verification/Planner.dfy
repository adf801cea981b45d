/** Plan validation: the checks of each task in order, then a depth-first search for a cycle. */
module Planner {
  import opened Model

  datatype PlanError =
    | NoTasks | TooMany | BadId | DuplicateId
    | MissingText | LongTitle | LongDescription | ManyCriteria | LongCriterion
    | DuplicateDependency | UnknownDependency | SelfDependency | BadRisk
    | Cycle

  const MAX_TITLE_CHARS := 240
  const MAX_DESCRIPTION_CHARS := 8000
  const MAX_ACCEPTANCE_ITEMS := 16
  const MAX_ACCEPTANCE_CHARS := 1000

  type Graph = map<string, set<string>>

  // ---- the specification ---------------------------------------------------------------

  predicate Letter(c: char) {
    'a' <= c <= 'z' || 'A' <= c <= 'Z'
  }

  /** ^[A-Za-z][A-Za-z0-9_.-]{0,31}$ */
  predicate IdOk(id: string) {
    && 1 <= |id| <= 32 && Letter(id[0])
    && forall i :: 1 <= i < |id| ==> Letter(id[i]) || '0' <= id[i] <= '9' || id[i] in "_.-"
  }

  predicate Distinct(s: seq<string>) {
    forall i, j :: 0 <= i < j < |s| ==> s[i] != s[j]
  }

  function Ids(tasks: seq<PlannedTask>): seq<string> {
    seq(|tasks|, i requires 0 <= i < |tasks| => tasks[i].logicalId)
  }

  function ToSet(s: seq<string>): set<string> {
    set x | x in s
  }

  /** The first check the task fails, if any. */
  function TaskError(t: PlannedTask, known: set<string>): Option<PlanError> {
    if t.title == "" || t.description == "" then Some(MissingText)
    else if |t.title| > MAX_TITLE_CHARS then Some(LongTitle)
    else if |t.description| > MAX_DESCRIPTION_CHARS then Some(LongDescription)
    else if |t.acceptance| > MAX_ACCEPTANCE_ITEMS then Some(ManyCriteria)
    else if exists c <- t.acceptance :: |c| > MAX_ACCEPTANCE_CHARS then Some(LongCriterion)
    else if !Distinct(t.dependsOn) then Some(DuplicateDependency)
    else if !(ToSet(t.dependsOn) <= known) then Some(UnknownDependency)
    else if t.logicalId in t.dependsOn then Some(SelfDependency)
    else if t.risk != "low" && t.risk != "medium" && t.risk != "high" then Some(BadRisk)
    else None
  }

  function FirstTaskError(tasks: seq<PlannedTask>, known: set<string>): Option<PlanError> {
    if tasks == [] then None
    else if TaskError(tasks[0], known).Some? then TaskError(tasks[0], known)
    else FirstTaskError(tasks[1..], known)
  }

  function GraphOf(tasks: seq<PlannedTask>): Graph
    decreases |tasks|
  {
    if tasks == [] then map[]
    else GraphOf(tasks[..|tasks| - 1])[tasks[|tasks| - 1].logicalId := ToSet(tasks[|tasks| - 1].dependsOn)]
  }

  ghost predicate Closed(g: Graph) {
    forall n, d :: n in g && d in g[n] ==> d in g
  }

  /** A walk along dependencies. */
  ghost predicate IsWalk(g: Graph, p: seq<string>) {
    forall i :: 0 <= i < |p| - 1 ==> p[i] in g && p[i + 1] in g[p[i]]
  }

  ghost predicate HasCycle(g: Graph) {
    exists p :: IsWalk(g, p) && |p| >= 2 && p[0] == p[|p| - 1]
  }

  /** The verdict: the first failing check in the order of the source; the cycle check comes last. */
  ghost function Verdict(tasks: seq<PlannedTask>, maxTasks: nat): Option<PlanError> {
    if tasks == [] then Some(NoTasks)
    else if |tasks| > maxTasks then Some(TooMany)
    else if exists i :: 0 <= i < |tasks| && !IdOk(tasks[i].logicalId) then Some(BadId)
    else if !Distinct(Ids(tasks)) then Some(DuplicateId)
    else if FirstTaskError(tasks, ToSet(Ids(tasks))).Some? then FirstTaskError(tasks, ToSet(Ids(tasks)))
    else if HasCycle(GraphOf(tasks)) then Some(Cycle)
    else None
  }

  /** Ranks that strictly decrease along every dependency. */
  ghost predicate Ranked(g: Graph, rank: map<string, nat>) {
    rank.Keys == g.Keys && forall n, d :: n in g && d in g[n] ==> d in rank && rank[d] < rank[n]
  }

  lemma {:induction false} WalkDescends(g: Graph, rank: map<string, nat>, p: seq<string>)
    requires Ranked(g, rank) && IsWalk(g, p) && |p| >= 2
    ensures p[0] in rank && p[|p| - 1] in rank && rank[p[|p| - 1]] < rank[p[0]]
  {
    if |p| > 2 {
      assert p[1] in g[p[0]];
      WalkDescends(g, rank, p[1..]);
    }
  }

  lemma RankedHasNoCycle(g: Graph, rank: map<string, nat>)
    requires Ranked(g, rank)
    ensures !HasCycle(g)
  {
    if HasCycle(g) {
      var p :| IsWalk(g, p) && |p| >= 2 && p[0] == p[|p| - 1];
      WalkDescends(g, rank, p);
      assert false;
    }
  }

  /** Meeting a node of the walk again closes a cycle. */
  lemma WalkCloses(g: Graph, p: seq<string>, node: string)
    requires IsWalk(g, p) && p != [] && node in p
    requires p[|p| - 1] in g && node in g[p[|p| - 1]]
    ensures HasCycle(g)
  {
    var i :| 0 <= i < |p| && p[i] == node;
    assert IsWalk(g, p[i..] + [node]);
  }

  // ---- the graph of a plan -------------------------------------------------------------

  lemma {:induction false} GraphOfPlan(tasks: seq<PlannedTask>)
    requires Distinct(Ids(tasks))
    ensures GraphOf(tasks).Keys == ToSet(Ids(tasks))
    ensures forall i :: 0 <= i < |tasks| ==>
              tasks[i].logicalId in GraphOf(tasks) && GraphOf(tasks)[tasks[i].logicalId] == ToSet(tasks[i].dependsOn)
  {
    if tasks != [] {
      var init := tasks[..|tasks| - 1];
      var last := tasks[|tasks| - 1];
      assert Ids(tasks) == Ids(init) + [last.logicalId];
      PrefixDistinct(Ids(init), last.logicalId);
      GraphOfPlan(init);
      assert forall i :: 0 <= i < |init| ==> Ids(init)[i] == tasks[i].logicalId && init[i] == tasks[i];
    }
  }

  lemma PrefixDistinct(ids: seq<string>, last: string)
    requires Distinct(ids + [last])
    ensures Distinct(ids) && last !in ids
  {
    forall i, j | 0 <= i < j < |ids| ensures ids[i] != ids[j] {
      assert (ids + [last])[i] == ids[i] && (ids + [last])[j] == ids[j];
    }
    forall i | 0 <= i < |ids| ensures ids[i] != last {
      assert (ids + [last])[i] == ids[i] && (ids + [last])[|ids|] == last;
    }
  }

  lemma {:induction false} NoTaskError(tasks: seq<PlannedTask>, known: set<string>)
    ensures FirstTaskError(tasks, known).None? <==> forall i :: 0 <= i < |tasks| ==> TaskError(tasks[i], known).None?
  {
    if tasks != [] {
      NoTaskError(tasks[1..], known);
      assert forall i :: 1 <= i < |tasks| ==> tasks[i] == tasks[1..][i - 1];
    }
  }

  lemma PlanGraphClosed(tasks: seq<PlannedTask>)
    requires Distinct(Ids(tasks)) && FirstTaskError(tasks, ToSet(Ids(tasks))).None?
    ensures Closed(GraphOf(tasks))
  {
    GraphOfPlan(tasks);
    NoTaskError(tasks, ToSet(Ids(tasks)));
    forall n, d | n in GraphOf(tasks) && d in GraphOf(tasks)[n] ensures d in GraphOf(tasks) {
      var i :| 0 <= i < |tasks| && Ids(tasks)[i] == n;
      assert TaskError(tasks[i], ToSet(Ids(tasks))).None?;
    }
  }

  // ---- the traversal -------------------------------------------------------------------

  /** The closure of visit: the two sets it shares. The ghost fields record what they stand for. */
  class Traversal {
    const graph: Graph
    var visiting: set<string>
    var visited: set<string>
    ghost var stack: seq<string>        // the nodes being visited, outermost first
    ghost var rank: map<string, nat>    // of the visited nodes

    constructor (graph: Graph)
      ensures this.graph == graph && visited == {} && stack == [] && Valid()
    {
      this.graph := graph;
      visiting, visited, stack, rank := {}, {}, [], map[];
    }

    ghost predicate Valid()
      reads this
    {
      && visiting == ToSet(stack) && visiting <= graph.Keys && visiting !! visited
      && IsWalk(graph, stack)
      && rank.Keys == visited <= graph.Keys
      && (forall n, d :: n in visited && d in graph[n] ==> d in visited && rank[d] < rank[n])
    }

    /** visiting.remove, visited.add: every dependency is ranked, so the node can be ranked above. */
    method Leave(node: string)
      requires Valid() && stack != [] && stack[|stack| - 1] == node && node !in stack[..|stack| - 1]
      requires graph[node] <= visited
      modifies this
      ensures Valid() && stack == old(stack[..|stack| - 1]) && visited == old(visited) + {node}
      ensures visiting == old(visiting) - {node}
    {
      ghost var below := stack[..|stack| - 1];
      assert forall x :: x in stack <==> x in below || x == node;
      visiting := visiting - {node};
      stack := below;
      visited := visited + {node};
      ghost var bound := MaxRank(rank);
      rank := rank[node := bound + 1];
    }

    /** True when visit returns; false when it raises, and then there is a cycle. */
    method Visit(node: string) returns (ok: bool)
      requires Valid() && Closed(graph) && node in graph
      requires stack != [] ==> node in graph[stack[|stack| - 1]]
      modifies this
      ensures !ok ==> HasCycle(graph)
      ensures ok ==> Valid() && visiting == old(visiting) && stack == old(stack)
      ensures ok ==> node in visited && old(visited) <= visited
      decreases graph.Keys - visiting
    {
      if node in visited { return true; }
      if node in visiting {
        WalkCloses(graph, stack, node);
        return false;
      }
      visiting := visiting + {node};
      stack := stack + [node];
      var deps := graph[node];
      while deps != {}
        invariant Valid() && stack == old(stack) + [node] && deps <= graph[node]
        invariant graph[node] - deps <= visited && old(visited) <= visited
        decreases deps
      {
        var dep :| dep in deps;
        ok := Visit(dep);
        if !ok { return; }
        deps := deps - {dep};
      }
      Leave(node);
      return true;
    }
  }

  ghost function MaxRank(rank: map<string, nat>): (m: nat)
    ensures forall n <- rank :: rank[n] <= m
  {
    if rank == map[] then 0 else
    var n :| n in rank;
    var m := MaxRank(rank - {n});
    assert forall k <- rank :: k == n || k in rank - {n};
    if rank[n] > m then rank[n] else m
  }

  // ---- validate ------------------------------------------------------------------------

  /** The loop over the graph: a plan's tasks in order. */
  method Traverse(g: Graph, ids: seq<string>) returns (ok: bool)
    requires Closed(g) && ToSet(ids) == g.Keys
    ensures ok <==> !HasCycle(g)
    ensures ok <==> exists rank :: Ranked(g, rank)
  {
    var t := new Traversal(g);
    for i := 0 to |ids|
      invariant t.Valid() && t.graph == g && t.stack == []
      invariant forall k :: 0 <= k < i ==> ids[k] in t.visited
    {
      ok := t.Visit(ids[i]);
      if !ok {
        forall rank | Ranked(g, rank) ensures false { RankedHasNoCycle(g, rank); }
        return;
      }
    }
    assert Ranked(g, t.rank);
    RankedHasNoCycle(g, t.rank);
    return true;
  }

  /** Planner.validate: the error it raises, or None. */
  method Validate(tasks: seq<PlannedTask>, maxTasks: nat) returns (error: Option<PlanError>)
    ensures error == Verdict(tasks, maxTasks)
    ensures error.None? ==> exists rank :: Ranked(GraphOf(tasks), rank)
  {
    if tasks == [] { return Some(NoTasks); }
    if |tasks| > maxTasks { return Some(TooMany); }
    var ids := Ids(tasks);
    if exists i :: 0 <= i < |tasks| && !IdOk(tasks[i].logicalId) { return Some(BadId); }
    if !Distinct(ids) { return Some(DuplicateId); }
    var known := ToSet(ids);
    for i := 0 to |tasks|
      invariant FirstTaskError(tasks, known) == FirstTaskError(tasks[i..], known)
    {
      error := TaskError(tasks[i], known);
      if error.Some? { return; }
    }
    var graph: Graph := map[];
    for i := 0 to |tasks|
      invariant graph == GraphOf(tasks[..i])
    {
      graph := graph[tasks[i].logicalId := ToSet(tasks[i].dependsOn)];
      assert tasks[..i + 1][..i] == tasks[..i];
    }
    assert tasks[..|tasks|] == tasks;
    GraphOfPlan(tasks);
    PlanGraphClosed(tasks);
    var ok := Traverse(graph, ids);
    return if ok then None else Some(Cycle);
  }

  // ---- what acceptance gives the scheduler ---------------------------------------------

  /** One more step of a walk inside r reaches a new node, or a cycle would close. */
  lemma WalkIsFresh(g: Graph, p: seq<string>, d: string)
    requires !HasCycle(g) && IsWalk(g, p) && p != []
    requires p[|p| - 1] in g && d in g[p[|p| - 1]]
    ensures d !in ToSet(p)
  {
    if d in p {
      WalkCloses(g, p, d);
      assert false;
    }
  }

  lemma WalkExtends(g: Graph, p: seq<string>, d: string)
    requires IsWalk(g, p) && p != []
    requires p[|p| - 1] in g && d in g[p[|p| - 1]]
    ensures IsWalk(g, p + [d]) && ToSet(p + [d]) == ToSet(p) + {d}
  {
    var q := p + [d];
    forall i | 0 <= i < |q| - 1 ensures q[i] in g && q[i + 1] in g[q[i]] {
      if i < |p| - 1 { assert q[i] == p[i] && q[i + 1] == p[i + 1]; }
    }
    forall x ensures x in q <==> x in p || x == d {}
  }

  /** Follow dependencies inside r until a node has none there. */
  lemma {:induction false} FollowInside(g: Graph, r: set<string>, p: seq<string>)
    requires Closed(g) && !HasCycle(g) && r <= g.Keys
    requires p != [] && IsWalk(g, p) && ToSet(p) <= r
    ensures exists n <- r :: g[n] !! r
    decreases |r - ToSet(p)|
  {
    var n := p[|p| - 1];
    if !(g[n] !! r) {
      var d :| d in g[n] && d in r;
      assert n in ToSet(p);
      WalkIsFresh(g, p, d);
      WalkExtends(g, p, d);
      Smaller(r, ToSet(p), d);
      FollowInside(g, r, p + [d]);
    }
  }

  lemma Smaller(r: set<string>, s: set<string>, d: string)
    requires d in r && d !in s
    ensures |r - (s + {d})| < |r - s|
  {
    assert r - s == (r - (s + {d})) + {d};
  }

  /** In an acyclic graph every non-empty set of nodes has one that depends on none of the others. */
  lemma SomeNodeIsFree(g: Graph, r: set<string>)
    requires Closed(g) && !HasCycle(g) && r <= g.Keys && r != {}
    ensures exists n <- r :: g[n] !! r
  {
    var m :| m in r;
    FollowInside(g, r, [m]);
  }
}
