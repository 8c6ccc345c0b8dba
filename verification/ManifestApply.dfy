/**
 The reconciler's loop over a manifest: one document at a time against the server as it is then,
 with the kinds that depend on a failed one blocked.

 `reconcile` stands for one document's lookup, diff and create or update: any function of the
 server and the document. Module ManifestServer gives it for SLI, SLO and SLOAssignment documents.
 */
module ManifestApply {

  import opened ManifestKinds
  import opened ManifestDocuments

  datatype Outcome = Created | Updated | Skipped | Failed(error: string)

  /** What the loop did with a document: `Blocked` issues no call for it. */
  datatype Disposal = Blocked | Did(outcome: Outcome)

  datatype ApplyError = ApplyError(kind: Kind, name: string, error: string)

  datatype ApplyResult = ApplyResult(created: nat, updated: nat, skipped: nat, failed: nat, errors: seq<ApplyError>)

  const NOTHING_APPLIED := ApplyResult(0, 0, 0, 0, [])

  /** Where the loop stands: `calls` lists the documents that reached the server. */
  datatype Progress<S> = Progress(server: S, blocked: set<Kind>, disposals: seq<Disposal>, calls: seq<nat>)

  // ----- specification -----

  ghost function DependentSet(kind: Kind): set<Kind> {
    set k | k in AllKinds() && DependsOn(k, kind)
  }

  ghost function Advance<S>(reconcile: (S, Document) -> (S, Outcome), p: Progress<S>, doc: Document): Progress<S> {
    if doc.kind in p.blocked then p.(disposals := p.disposals + [Blocked])
    else
      var (server, outcome) := reconcile(p.server, doc);
      Progress(server,
               if outcome.Failed? then p.blocked + DependentSet(doc.kind) else p.blocked,
               p.disposals + [Did(outcome)],
               p.calls + [|p.disposals|])
  }

  /** The loop after the first n documents. */
  ghost function At<S>(reconcile: (S, Document) -> (S, Outcome), server: S,
      docs: seq<Document>, n: nat): (p: Progress<S>)
    requires n <= |docs|
    ensures |p.disposals| == n
  {
    if n == 0 then Progress(server, {}, [], [])
    else Advance(reconcile, At(reconcile, server, docs, n - 1), docs[n - 1])
  }

  ghost function After<S>(reconcile: (S, Document) -> (S, Outcome), server: S, docs: seq<Document>): (p: Progress<S>)
    ensures |p.disposals| == |docs|
  {
    At(reconcile, server, docs, |docs|)
  }

  function Tallied(r: ApplyResult, doc: Document, d: Disposal): ApplyResult {
    match d
    case Blocked =>
      r.(failed := r.failed + 1, errors := r.errors + [ApplyError(doc.kind, doc.name, "blocked by prior error")])
    case Did(Failed(error)) => r.(failed := r.failed + 1, errors := r.errors + [ApplyError(doc.kind, doc.name, error)])
    case Did(Created) => r.(created := r.created + 1)
    case Did(Updated) => r.(updated := r.updated + 1)
    case Did(Skipped) => r.(skipped := r.skipped + 1)
  }

  function Tally(docs: seq<Document>, disposals: seq<Disposal>): ApplyResult
    requires |disposals| <= |docs|
  {
    if disposals == [] then NOTHING_APPLIED
    else
      var n := |disposals| - 1;
      Tallied(Tally(docs, disposals[..n]), docs[n], disposals[n])
  }

  /** Every document is counted once, and every failure has an error. */
  lemma {:induction false} TallyConserves(docs: seq<Document>, disposals: seq<Disposal>)
    requires |disposals| <= |docs|
    ensures
      var r := Tally(docs, disposals);
      && r.created + r.updated + r.skipped + r.failed == |disposals|
      && |r.errors| == r.failed
      && (r.failed == 0 <==> NoneFailed(disposals))
    decreases |disposals|
  {
    if disposals != [] {
      var n := |disposals| - 1;
      TallyConserves(docs, disposals[..n]);
      assert disposals == disposals[..n] + [disposals[n]];
    }
  }

  lemma TallyOne(docs: seq<Document>, disposals: seq<Disposal>, d: Disposal)
    requires |disposals| < |docs|
    ensures Tally(docs, disposals + [d]) == Tallied(Tally(docs, disposals), docs[|disposals|], d)
  {
    assert (disposals + [d])[..|disposals|] == disposals;
  }

  /**
    * What the body does with a document does not depend on what was done before, only on the server and the
    * blocked kinds.
    */
  lemma AdvanceFrom<S>(reconcile: (S, Document) -> (S, Outcome), p: Progress<S>, doc: Document, server: S,
      blocked: set<Kind>, d: Disposal)
    requires Progress(server, blocked, [d], if d.Did? then [0] else [])
          == Advance(reconcile, Progress(p.server, p.blocked, [], []), doc)
    ensures
      var next := Advance(reconcile, p, doc);
      next.server == server && next.blocked == blocked && next.disposals == p.disposals + [d]
  {
    var alone := Advance(reconcile, Progress(p.server, p.blocked, [], []), doc);
    assert alone.disposals[0] == d;
  }

  predicate NoneFailed(disposals: seq<Disposal>) {
    forall i :: 0 <= i < |disposals| ==> disposals[i].Did? && !disposals[i].outcome.Failed?
  }

  // ----- the loop -----

  /** The client's side of `apply`: the server changes under it, one document at a time. */
  class ManifestClient<S> {
    var server: S
    const reconcile: (S, Document) -> (S, Outcome)

    constructor (server: S, reconcile: (S, Document) -> (S, Outcome))
      ensures this.server == server && this.reconcile == reconcile
    {
      this.server := server;
      this.reconcile := reconcile;
    }

    method Reconcile(doc: Document) returns (outcome: Outcome)
      modifies this
      ensures (server, outcome) == reconcile(old(server), doc)
    {
      var (reconciled, result) := reconcile(server, doc);
      server := reconciled;
      return result;
    }

    /** The loop's body: the document is counted, and a failure blocks the kinds that depend on its own. */
    method ApplyOne(doc: Document, blocked: set<Kind>, result: ApplyResult)
      returns (blocked': set<Kind>, result': ApplyResult, ghost disposal: Disposal)
      modifies this
      ensures Progress(server, blocked', [disposal], if disposal.Did? then [0] else [])
           == Advance(reconcile, Progress(old(server), blocked, [], []), doc)
      ensures result' == Tallied(result, doc, disposal)
    {
      blocked', result', disposal := blocked, result, Blocked;
      if doc.kind in blocked {
        result' := result.(failed := result.failed + 1,
                           errors := result.errors + [ApplyError(doc.kind, doc.name, "blocked by prior error")]);
        return;
      }
      var outcome := Reconcile(doc);
      disposal := Did(outcome);
      match outcome {
        case Skipped => result' := result.(skipped := result.skipped + 1);
        case Created => result' := result.(created := result.created + 1);
        case Updated => result' := result.(updated := result.updated + 1);
        case Failed(error) =>
          result' := result.(failed := result.failed + 1,
                             errors := result.errors + [ApplyError(doc.kind, doc.name, error)]);
          var dependents := DependentsOf(doc.kind);
          assert dependents == DependentSet(doc.kind);
          blocked' := blocked + dependents;
      }
    }

    /** `apply`: the server it leaves and the counts it reports. */
    method Apply(docs: seq<Document>) returns (result: ApplyResult)
      modifies this
      ensures server == After(reconcile, old(server), docs).server
      ensures result == Tally(docs, After(reconcile, old(server), docs).disposals)
      ensures result.created + result.updated + result.skipped + result.failed == |docs|
      ensures |result.errors| == result.failed
    {
      result := NOTHING_APPLIED;
      var blocked: set<Kind> := {};
      ghost var p: Progress<S> := At(reconcile, server, docs, 0);
      for n := 0 to |docs|
        invariant p == At(reconcile, old(server), docs, n)
        invariant p.server == server && p.blocked == blocked
        invariant result == Tally(docs, p.disposals)
      {
        ghost var disposal;
        blocked, result, disposal := ApplyOne(docs[n], blocked, result);
        AdvanceFrom(reconcile, p, docs[n], server, blocked, disposal);
        TallyOne(docs, p.disposals, disposal);
        p := At(reconcile, old(server), docs, n + 1);
      }
      TallyConserves(docs, p.disposals);
    }
  }

  // ----- the shape of a run of the loop -----

  /** What the loop did with document i, it did right after the i documents before it. */
  lemma {:induction false} DisposalAt<S>(reconcile: (S, Document) -> (S, Outcome), server: S, docs: seq<Document>,
      n: nat, i: nat)
    requires i < n <= |docs|
    ensures
      var before := At(reconcile, server, docs, i);
      At(reconcile, server, docs, n).disposals[i]
        == if docs[i].kind in before.blocked then Blocked else Did(reconcile(before.server, docs[i]).1)
  {
    if i < n - 1 {
      DisposalAt(reconcile, server, docs, n - 1, i);
    }
  }

  /** The loop has only added to its disposals. */
  lemma {:induction false} DisposalsGrow<S>(reconcile: (S, Document) -> (S, Outcome), server: S, docs: seq<Document>,
      m: nat, n: nat)
    requires m <= n <= |docs|
    ensures At(reconcile, server, docs, m).disposals == At(reconcile, server, docs, n).disposals[..m]
  {
    if m < n {
      DisposalsGrow(reconcile, server, docs, m, n - 1);
    }
  }

  predicate FailedAt(disposals: seq<Disposal>, i: int) {
    0 <= i < |disposals| && disposals[i].Did? && disposals[i].outcome.Failed?
  }

  /** Some document of a kind that `k` depends on failed. */
  ghost predicate DependencyFailed(docs: seq<Document>, disposals: seq<Disposal>, k: Kind)
    requires |disposals| <= |docs|
  {
    exists i :: FailedAt(disposals, i) && DependsOn(k, docs[i].kind)
  }

  lemma DependencyStep(docs: seq<Document>, disposals: seq<Disposal>, d: Disposal, k: Kind)
    requires |disposals| < |docs|
    ensures DependencyFailed(docs, disposals + [d], k)
      <==> (DependencyFailed(docs, disposals, k)
            || (d.Did? && d.outcome.Failed? && DependsOn(k, docs[|disposals|].kind)))
  {
    var all := disposals + [d];
    assert forall i :: FailedAt(disposals, i) ==> FailedAt(all, i);
    if DependencyFailed(docs, all, k) {
      var i :| FailedAt(all, i) && DependsOn(k, docs[i].kind);
      assert i < |disposals| ==> FailedAt(disposals, i);
    }
    if d.Did? && d.outcome.Failed? {
      assert FailedAt(all, |disposals|);
    }
  }

  /** The blocked kinds are the dependents of the kinds that failed. */
  lemma {:induction false} BlockedKinds<S>(reconcile: (S, Document) -> (S, Outcome), server: S, docs: seq<Document>,
      n: nat, k: Kind)
    requires n <= |docs|
    ensures k in At(reconcile, server, docs, n).blocked
      <==> DependencyFailed(docs, At(reconcile, server, docs, n).disposals, k)
  {
    if n > 0 {
      BlockedKinds(reconcile, server, docs, n - 1, k);
      var p, p' := At(reconcile, server, docs, n - 1), At(reconcile, server, docs, n);
      assert p' == Advance(reconcile, p, docs[n - 1]);
      DependencyStep(docs, p.disposals, p'.disposals[n - 1], k);
    }
  }

  /** What a document depends on comes before it. */
  lemma DependenciesComeFirst(docs: seq<Document>, all: seq<Disposal>, before: seq<Disposal>, j: nat)
    requires KindSorted(docs) && j < |docs| == |all| && before == all[..j]
    ensures DependencyFailed(docs, all, docs[j].kind) <==> DependencyFailed(docs, before, docs[j].kind)
  {
    if DependencyFailed(docs, all, docs[j].kind) {
      var i :| FailedAt(all, i) && DependsOn(docs[j].kind, docs[i].kind);
      var path :| Leads(docs[i].kind, path, docs[j].kind);
      DependentsComeLater(docs[i].kind, path, docs[j].kind);
      assert FailedAt(before, i);
    }
    if DependencyFailed(docs, before, docs[j].kind) {
      var i :| FailedAt(before, i) && DependsOn(docs[j].kind, docs[i].kind);
      assert FailedAt(all, i);
    }
  }

  /** On sorted input a document is blocked exactly when a document of a kind it depends on failed. */
  lemma BlockedIffDependencyFailed<S>(reconcile: (S, Document) -> (S, Outcome), server: S, docs: seq<Document>, j: nat)
    requires KindSorted(docs) && j < |docs|
    ensures After(reconcile, server, docs).disposals[j].Blocked?
       <==> DependencyFailed(docs, After(reconcile, server, docs).disposals, docs[j].kind)
  {
    var all, before := After(reconcile, server, docs).disposals, At(reconcile, server, docs, j).disposals;
    DisposalAt(reconcile, server, docs, |docs|, j);
    DisposalsGrow(reconcile, server, docs, j, |docs|);
    BlockedKinds(reconcile, server, docs, j, docs[j].kind);
    DependenciesComeFirst(docs, all, before, j);
  }

  /** The documents that reached the server are the unblocked ones, each once and in order. */
  ghost predicate CallsOk(disposals: seq<Disposal>, calls: seq<nat>) {
    && (forall i :: 0 <= i < |disposals| ==> (i in calls <==> disposals[i].Did?))
    && (forall m :: 0 <= m < |calls| ==> calls[m] < |disposals|)
    && (forall m, k :: 0 <= m < k < |calls| ==> calls[m] < calls[k])
  }

  /** No lookup, create or update is issued for a blocked document; any other is reconciled once, in order. */
  lemma {:induction false} CallsAreUnblocked<S>(reconcile: (S, Document) -> (S, Outcome), server: S,
      docs: seq<Document>, n: nat)
    requires n <= |docs|
    ensures CallsOk(At(reconcile, server, docs, n).disposals, At(reconcile, server, docs, n).calls)
  {
    if n > 0 {
      CallsAreUnblocked(reconcile, server, docs, n - 1);
      var p, p' := At(reconcile, server, docs, n - 1), At(reconcile, server, docs, n);
      assert p' == Advance(reconcile, p, docs[n - 1]);
      CallsStep(p.disposals, p.calls, p'.disposals[n - 1]);
    }
  }

  lemma CallsStep(disposals: seq<Disposal>, calls: seq<nat>, d: Disposal)
    requires CallsOk(disposals, calls)
    ensures CallsOk(disposals + [d], if d.Blocked? then calls else calls + [|disposals|])
  {
    var calls' := if d.Blocked? then calls else calls + [|disposals|];
    assert d.Did? ==> calls'[|calls|] == |disposals|;
    forall i | 0 <= i < |disposals| ensures i in calls' <==> i in calls {}
  }
}
