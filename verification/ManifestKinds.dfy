/** Manifest document kinds: processing order, dependency closure and the stable kind sort. */
module ManifestKinds {

  import opened Prelude

  datatype Kind =
    | AssetType | DataSource | Asset | SLI | SLO | AssetGroup
    | SLOGroup | SLODisplayGroup | SLOAssignment | SLOGroupAssignment | MetaSnapshot

  /** Position in the processing order. */
  function Rank(k: Kind): nat {
    match k
    case AssetType => 0
    case DataSource => 1
    case Asset => 2
    case SLI => 3
    case SLO => 4
    case AssetGroup => 5
    case SLOGroup => 6
    case SLODisplayGroup => 7
    case SLOAssignment => 8
    case SLOGroupAssignment => 9
    case MetaSnapshot => 10
  }

  const KIND_COUNT := 11

  ghost function AllKinds(): (all: set<Kind>)
    ensures forall k: Kind :: k in all
  {
    set k: Kind | Rank(k) < KIND_COUNT
  }

  /** The kinds that depend on `k` directly. */
  function DirectDependents(k: Kind): set<Kind> {
    match k
    case AssetType => {Asset}
    case DataSource => {SLOAssignment, SLOGroupAssignment}
    case Asset => {AssetGroup, SLOAssignment, SLOGroupAssignment, MetaSnapshot}
    case SLO => {SLOAssignment, SLOGroup, SLODisplayGroup}
    case AssetGroup => {SLOAssignment, SLOGroupAssignment}
    case SLOGroup => {SLOGroupAssignment}
    case _ => {}
  }

  // ----- transitive dependents -----

  /** `path` leads from `a` to `b` along direct dependencies; the empty path is one edge. */
  ghost predicate Leads(a: Kind, path: seq<Kind>, b: Kind)
    decreases path
  {
    if path == [] then b in DirectDependents(a)
    else path[0] in DirectDependents(a) && Leads(path[0], path[1..], b)
  }

  ghost predicate DependsOn(b: Kind, a: Kind) {
    exists path :: Leads(a, path, b)
  }

  lemma {:induction false} LeadsOn(a: Kind, path: seq<Kind>, b: Kind, c: Kind)
    requires Leads(a, path, b) && c in DirectDependents(b)
    ensures Leads(a, path + [b], c)
    decreases path
  {
    if path == [] {
      assert Leads(b, [], c);
      assert (path + [b])[1..] == [];
    } else {
      LeadsOn(path[0], path[1..], b, c);
      assert (path + [b])[1..] == path[1..] + [b];
    }
  }

  lemma {:induction false} ClosedContains(a: Kind, path: seq<Kind>, b: Kind, closed: set<Kind>)
    requires Leads(a, path, b) && DirectDependents(a) <= closed
    requires forall k :: k in closed ==> DirectDependents(k) <= closed
    ensures b in closed
    decreases path
  {
    if path != [] {
      ClosedContains(path[0], path[1..], b, closed);
    }
  }

  ghost predicate Pushed(deps: set<Kind>, result: set<Kind>, stack: seq<Kind>, stack': seq<Kind>) {
    && (forall k :: k in stack' <==> k in stack || k in deps - result)
    && (deps <= result ==> stack' == stack)
  }

  /** The walk's inner loop: new dependents go into the result and onto the stack. */
  method PushNew(deps: set<Kind>, result: set<Kind>, stack: seq<Kind>) returns (result': set<Kind>, stack': seq<Kind>)
    ensures result' == result + deps
    ensures Pushed(deps, result, stack, stack')
  {
    result', stack' := result, stack;
    var todo := deps;
    while todo != {}
      invariant todo <= deps && result' == result + (deps - todo)
      invariant forall k :: k in stack' <==> k in stack || k in deps - todo - result
      invariant deps <= result ==> stack' == stack
      decreases |todo|
    {
      var dep :| dep in todo;
      todo := todo - {dep};
      if dep !in result' {
        result' := result' + {dep};
        stack' := stack' + [dep];
      }
    }
  }

  ghost function Unseen(result: set<Kind>): nat {
    |AllKinds() - result|
  }

  /** Everything on the walk's way is reachable, and what it has left behind is closed. */
  ghost predicate WalkOk(kind: Kind, stack: seq<Kind>, result: set<Kind>) {
    && (forall k :: k in result ==> DependsOn(k, kind))
    && (forall k :: k in stack ==> k == kind || k in result)
    && (forall k :: (k == kind || k in result) && k !in stack ==> DirectDependents(k) <= result)
  }

  /** The stack walk returns the kinds that depend on `kind`, directly or not, and no others. */
  method DependentsOf(kind: Kind) returns (result: set<Kind>)
    ensures forall k :: k in result <==> DependsOn(k, kind)
  {
    result := {};
    var stack := [kind];
    while stack != []
      invariant WalkOk(kind, stack, result)
      decreases Unseen(result), |stack|
    {
      var k := stack[|stack| - 1];
      var rest := stack[..|stack| - 1];
      assert stack == rest + [k];
      ghost var before := result;
      result, stack := PushNew(DirectDependents(k), result, rest);
      WalkStep(kind, k, rest, before, stack, result);
    }
    WalkEnds(kind, result);
  }

  lemma WalkEnds(kind: Kind, result: set<Kind>)
    requires WalkOk(kind, [], result)
    ensures forall k :: k in result <==> DependsOn(k, kind)
  {
    forall b | DependsOn(b, kind) ensures b in result {
      var path :| Leads(kind, path, b);
      ClosedContains(kind, path, b, result);
    }
  }

  lemma WalkStep(kind: Kind, k: Kind, rest: seq<Kind>, before: set<Kind>, stack: seq<Kind>, result: set<Kind>)
    requires WalkOk(kind, rest + [k], before)
    requires result == before + DirectDependents(k)
    requires Pushed(DirectDependents(k), before, rest, stack)
    ensures WalkOk(kind, stack, result)
    ensures Unseen(result) < Unseen(before) || (Unseen(result) == Unseen(before) && |stack| == |rest|)
  {
    var deps := DirectDependents(k);
    assert forall j :: j in rest + [k] <==> j in rest || j == k;
    forall dep | dep in deps ensures DependsOn(dep, kind) {
      assert k in rest + [k];
      DependsOnNext(kind, k, dep);
    }
    if deps <= before {
      assert result == before;
    } else {
      Shrinks(before, result);
    }
  }

  lemma DependsOnNext(kind: Kind, k: Kind, dep: Kind)
    requires (k == kind || DependsOn(k, kind)) && dep in DirectDependents(k)
    ensures DependsOn(dep, kind)
  {
    if k == kind {
      assert Leads(kind, [], dep);
    } else {
      var path :| Leads(kind, path, k);
      LeadsOn(kind, path, k, dep);
    }
  }

  lemma Shrinks(a: set<Kind>, b: set<Kind>)
    requires a < b
    ensures Unseen(b) < Unseen(a)
  {
    var k :| k in b && k !in a;
    assert AllKinds() - b <= AllKinds() - a - {k};
    SubsetSize(AllKinds() - b, AllKinds() - a - {k});
  }

  /** A kind's dependents all come later in the processing order. */
  lemma {:induction false} DependentsComeLater(a: Kind, path: seq<Kind>, b: Kind)
    requires Leads(a, path, b)
    ensures Rank(a) < Rank(b)
    decreases path
  {
    if path != [] {
      DependentsComeLater(path[0], path[1..], b);
    }
  }
}
