/** The migration graph and the deployment check (scripts/check_schema_compat.py). */
module Revisions {
  import opened Text

  /** Each revision with its down revisions. A down revision need not be in the graph. */
  type Graph = map<string, seq<string>>

  function ParentsOf(graph: Graph, revision: string): seq<string> {
    if revision in graph then graph[revision] else []
  }

  predicate Edge(graph: Graph, child: string, parent: string) {
    parent in ParentsOf(graph, child)
  }

  /** One or more parent steps. */
  predicate IsPath(graph: Graph, path: seq<string>) {
    |path| >= 2 && forall i :: 0 <= i < |path| - 1 ==> Edge(graph, path[i], path[i + 1])
  }

  ghost predicate Below(graph: Graph, revision: string, ancestor: string) {
    exists path :: IsPath(graph, path) && path[0] == revision && path[|path| - 1] == ancestor
  }

  lemma EdgeIsBelow(graph: Graph, child: string, parent: string)
    requires Edge(graph, child, parent)
    ensures Below(graph, child, parent)
  {
    assert IsPath(graph, [child, parent]);
  }

  lemma BelowThenEdge(graph: Graph, top: string, middle: string, parent: string)
    requires Below(graph, top, middle) && Edge(graph, middle, parent)
    ensures Below(graph, top, parent)
  {
    var path :| IsPath(graph, path) && path[0] == top && path[|path| - 1] == middle;
    var longer := path + [parent];
    forall i | 0 <= i < |longer| - 1 ensures Edge(graph, longer[i], longer[i + 1]) {
      if i < |path| - 1 { assert Edge(graph, path[i], path[i + 1]); }
    }
    assert IsPath(graph, longer);
  }

  lemma EdgeThenBelow(graph: Graph, top: string, middle: string, ancestor: string)
    requires Edge(graph, top, middle) && Below(graph, middle, ancestor)
    ensures Below(graph, top, ancestor)
  {
    var path :| IsPath(graph, path) && path[0] == middle && path[|path| - 1] == ancestor;
    var longer := [top] + path;
    forall i | 0 <= i < |longer| - 1 ensures Edge(graph, longer[i], longer[i + 1]) {
      if i > 0 { assert Edge(graph, path[i - 1], path[i]); }
    }
    assert IsPath(graph, longer);
  }

  function Mentioned(graph: Graph): set<string> {
    set child, i | child in graph && 0 <= i < |graph[child]| :: graph[child][i]
  }

  /** A set that holds the revision's parents and the parents of all it holds, holds everything below. */
  lemma {:induction false} ClosedHoldsPath(graph: Graph, found: set<string>, path: seq<string>)
    requires IsPath(graph, path)
    requires forall parent :: Edge(graph, path[0], parent) ==> parent in found
    requires forall child, parent :: child in found && Edge(graph, child, parent) ==> parent in found
    ensures path[|path| - 1] in found
    decreases |path|
  {
    assert Edge(graph, path[0], path[1]);
    if |path| > 2 {
      var rest := path[1..];
      forall i | 0 <= i < |rest| - 1 ensures Edge(graph, rest[i], rest[i + 1]) {
        var j := i + 1;
        assert Edge(graph, path[j], path[j + 1]);
      }
      ClosedHoldsPath(graph, found, rest);
    }
  }

  /** The worklist stops on every graph, cyclic or not, with exactly what is one or more parent steps below. */
  method Ancestors(graph: Graph, revision: string) returns (found: set<string>)
    ensures forall r :: r in found <==> Below(graph, revision, r)
  {
    hide Below;
    found := {};
    var pending := ParentsOf(graph, revision);
    forall p | p in pending ensures Below(graph, revision, p) { EdgeIsBelow(graph, revision, p); }
    while pending != []
      invariant forall r :: r in found || r in pending ==> Below(graph, revision, r)
      invariant found <= Mentioned(graph) && forall r :: r in pending ==> r in Mentioned(graph)
      invariant forall parent :: Edge(graph, revision, parent) ==> parent in found || parent in pending
      invariant forall child, parent :: child in found && Edge(graph, child, parent) ==> parent in found || parent in pending
      decreases Mentioned(graph) - found, |pending|
    {
      var parent := pending[|pending| - 1];
      ghost var before := pending;
      pending := pending[..|pending| - 1];
      assert before == pending + [parent];
      if parent !in found {
        ghost var left := Mentioned(graph) - found;
        found := found + {parent};
        assert parent in left && parent !in Mentioned(graph) - found;
        forall p | Edge(graph, parent, p) ensures Below(graph, revision, p) { BelowThenEdge(graph, revision, parent, p); }
        pending := pending + ParentsOf(graph, parent);
      }
    }
    forall r | Below(graph, revision, r) ensures r in found { InClosed(graph, found, revision, r); }
  }

  lemma InClosed(graph: Graph, found: set<string>, revision: string, r: string)
    requires Below(graph, revision, r)
    requires forall parent :: Edge(graph, revision, parent) ==> parent in found
    requires forall child, parent :: child in found && Edge(graph, child, parent) ==> parent in found
    ensures r in found
  {
    var path :| IsPath(graph, path) && path[0] == revision && path[|path| - 1] == r;
    ClosedHoldsPath(graph, found, path);
  }

  // ----- heads and the verdict -----

  predicate IsHead(graph: Graph, revision: string) {
    revision in graph && revision !in Mentioned(graph)
  }

  method CodeHeads(graph: Graph) returns (heads: set<string>)
    ensures forall r :: r in heads <==> IsHead(graph, r)
  {
    heads := graph.Keys - Mentioned(graph);
  }

  datatype Relation = Equal | Ancestor | Descendant | Divergent | Unknown

  ghost function RelationOf(graph: Graph, head: string, database: string): Relation {
    if database !in graph then Unknown
    else if database == head then Equal
    else if Below(graph, head, database) then Ancestor
    else if Below(graph, database, head) then Descendant
    else Divergent
  }

  method Relate(graph: Graph, head: string, database: string) returns (r: Relation)
    ensures r == RelationOf(graph, head, database)
  {
    hide Below;
    if database !in graph { return Unknown; }
    if database == head { return Equal; }
    var below := Ancestors(graph, head);
    if database in below { return Ancestor; }
    below := Ancestors(graph, database);
    return if head in below then Descendant else Divergent;
  }

  datatype Refusal = GraphUnreadable | HeadMissing | SeveralHeads | UrlRequired | NoRevision(code: string)

  datatype Verdict = Refused(why: Refusal) | Compared(head: string, relation: Relation)

  predicate Passes(verdict: Verdict) {
    verdict.Compared? && verdict.relation in {Equal, Descendant}
  }

  ghost predicate SingleHead(graph: Graph, head: string) {
    IsHead(graph, head) && forall r :: IsHead(graph, r) ==> r == head
  }

  /** The check: the graph before any connection, then the database's revision or the code of what went wrong. It
      passes if and only if the graph could be read and has a single head, and the database is at that head. */
  method Check(graph: Option<Graph>, urlSet: bool, read: Option<string>, code: string) returns (verdict: Verdict)
    ensures Passes(verdict) <==>
      graph.Some? && urlSet && read.Some? && SingleHead(graph.value, read.value)
    ensures verdict.Compared? ==> read.Some? && graph.Some? && SingleHead(graph.value, verdict.head)
                                  && verdict.relation == RelationOf(graph.value, verdict.head, read.value)
                                  && (verdict.relation == Unknown <==> read.value !in graph.value)
    ensures verdict == Refused(GraphUnreadable) <==> graph.None?
    ensures verdict == Refused(HeadMissing) <==> graph.Some? && forall r :: !IsHead(graph.value, r)
    ensures verdict == Refused(SeveralHeads) <==>
      graph.Some? && exists r, s :: r != s && IsHead(graph.value, r) && IsHead(graph.value, s)
    ensures verdict == Refused(UrlRequired) <==> graph.Some? && !urlSet && exists r :: SingleHead(graph.value, r)
    ensures verdict == Refused(NoRevision(code)) <==>
      graph.Some? && urlSet && read.None? && exists r :: SingleHead(graph.value, r)
  {
    hide Below;
    if graph.None? { return Refused(GraphUnreadable); }
    var heads := CodeHeads(graph.value);
    if heads == {} {
      return Refused(HeadMissing);
    }
    if |heads| > 1 {
      TwoHeads(graph.value, heads);
      return Refused(SeveralHeads);
    }
    var head :| head in heads;
    OneHead(graph.value, heads, head);
    if !urlSet { return Refused(UrlRequired); }
    if read.None? { return Refused(NoRevision(code)); }
    var relation := Relate(graph.value, head, read.value);
    NothingIsAboveAHead(graph.value, head, read.value);
    return Compared(head, relation);
  }

  lemma OneHead(graph: Graph, heads: set<string>, head: string)
    requires head in heads && |heads| <= 1 && forall r :: r in heads <==> IsHead(graph, r)
    ensures SingleHead(graph, head)
  {
    forall r | IsHead(graph, r) ensures r == head {
      if r != head {
        assert {r, head} <= heads;
        SubsetSize({r, head}, heads);
      }
    }
  }

  lemma TwoHeads(graph: Graph, heads: set<string>)
    requires |heads| > 1 && forall r :: r in heads <==> IsHead(graph, r)
    ensures exists r, s :: r != s && IsHead(graph, r) && IsHead(graph, s)
    ensures forall head :: !SingleHead(graph, head)
  {
    var r :| r in heads;
    assert |heads - {r}| == |heads| - 1;
    var s :| s in heads - {r};
    assert r != s && IsHead(graph, r) && IsHead(graph, s);
  }

  /** No revision has a head among its ancestors, cycles or not: the relation is never `descendant`. */
  lemma NothingIsAboveAHead(graph: Graph, head: string, revision: string)
    requires IsHead(graph, head)
    ensures !Below(graph, revision, head) && RelationOf(graph, head, revision) != Descendant
  {
    forall path | IsPath(graph, path) ensures path[|path| - 1] != head {
      LastIsMentioned(graph, path);
    }
  }

  lemma LastIsMentioned(graph: Graph, path: seq<string>)
    requires IsPath(graph, path)
    ensures path[|path| - 1] in Mentioned(graph)
  {
    var i := |path| - 2;
    assert Edge(graph, path[i], path[i + 1]);
    var k :| 0 <= k < |graph[path[i]]| && graph[path[i]][k] == path[i + 1];
  }

  ghost predicate Acyclic(graph: Graph) {
    forall r :: !Below(graph, r, r)
  }

  lemma {:induction false} BelowBelow(graph: Graph, top: string, middle: string, path: seq<string>)
    requires Below(graph, top, middle) && IsPath(graph, path) && path[0] == middle
    ensures Below(graph, top, path[|path| - 1])
    decreases |path|
  {
    var n := |path| - 1;
    assert Edge(graph, path[n - 1], path[n]);
    if n > 1 {
      forall i | 0 <= i < n - 1 ensures Edge(graph, path[..n][i], path[..n][i + 1]) { assert Edge(graph, path[i], path[i + 1]); }
      BelowBelow(graph, top, middle, path[..n]);
    }
    BelowThenEdge(graph, top, path[n - 1], path[n]);
  }

  lemma BelowTransitive(graph: Graph, top: string, middle: string, ancestor: string)
    requires Below(graph, top, middle) && Below(graph, middle, ancestor)
    ensures Below(graph, top, ancestor)
  {
    var path :| IsPath(graph, path) && path[0] == middle && path[|path| - 1] == ancestor;
    BelowBelow(graph, top, middle, path);
  }

  /** Climbing from child to child ends at a head or on a cycle. */
  lemma {:induction false} Climb(graph: Graph, revision: string, seen: set<string>) returns (top: string)
    requires revision in graph && seen <= graph.Keys && revision !in seen
    requires forall r :: r in seen ==> Below(graph, revision, r)
    ensures IsHead(graph, top) || Below(graph, top, top)
    ensures top == revision || Below(graph, top, revision)
    decreases graph.Keys - seen
  {
    if revision !in Mentioned(graph) { return revision; }
    var child, i :| child in graph && 0 <= i < |graph[child]| && graph[child][i] == revision;
    assert Edge(graph, child, revision);
    EdgeIsBelow(graph, child, revision);
    forall r | r in seen + {revision} ensures Below(graph, child, r) {
      if r in seen { EdgeThenBelow(graph, child, revision, r); }
    }
    if child in seen + {revision} { return child; }
    assert revision in graph.Keys - seen && revision !in graph.Keys - (seen + {revision});
    top := Climb(graph, child, seen + {revision});
    if top != child { BelowThenEdge(graph, top, child, revision); }
  }

  lemma OnCycleIsKnown(graph: Graph, revision: string)
    requires Below(graph, revision, revision)
    ensures revision in graph
  {
    var path :| IsPath(graph, path) && path[0] == revision && path[|path| - 1] == revision;
    assert Edge(graph, path[0], path[1]);
  }

  /** With a single head, no known revision is divergent exactly when every revision on a cycle is below the head. */
  lemma DivergentExactly(graph: Graph, head: string)
    requires SingleHead(graph, head)
    ensures (forall r :: r in graph ==> RelationOf(graph, head, r) != Divergent)
            <==> (forall r :: Below(graph, r, r) ==> Below(graph, head, r))
  {
    hide Below;
    if forall r :: r in graph ==> RelationOf(graph, head, r) != Divergent {
      forall r | Below(graph, r, r) ensures Below(graph, head, r) {
        OnCycleIsKnown(graph, r);
        NothingIsAboveAHead(graph, head, r);
      }
    }
    if forall r :: Below(graph, r, r) ==> Below(graph, head, r) {
      forall r | r in graph ensures RelationOf(graph, head, r) != Divergent {
        var top := Climb(graph, r, {});
        if top != r && Below(graph, head, top) { BelowTransitive(graph, head, top, r); }
      }
    }
  }

  /** In an acyclic graph with a single head, a known revision is the head or an ancestor of it: `divergent` cannot
      occur either. */
  lemma KnownIsEqualOrAncestor(graph: Graph, head: string, database: string)
    requires Acyclic(graph) && SingleHead(graph, head) && database in graph
    ensures RelationOf(graph, head, database) == if database == head then Equal else Ancestor
  {
    hide Below;
    DivergentExactly(graph, head);
    NothingIsAboveAHead(graph, head, database);
  }

  /** Without acyclicity `divergent` can occur: two revisions that name each other, beside a single head. */
  lemma CycleCanDiverge()
    ensures var graph: Graph := map["h" := [], "a" := ["b"], "b" := ["a"]];
      SingleHead(graph, "h") && RelationOf(graph, "h", "a") == Divergent
  {
    var graph: Graph := map["h" := [], "a" := ["b"], "b" := ["a"]];
    assert graph["a"][0] in Mentioned(graph) && graph["b"][0] in Mentioned(graph);
    assert IsHead(graph, "h");
    forall path | IsPath(graph, path) ensures path[0] != "h" {
      assert Edge(graph, path[0], path[1]);
    }
    NothingIsAboveAHead(graph, "h", "a");
  }
}
