/** Where a failure-free apply leads, and what the dry run says about it beforehand and afterwards. */
module ManifestConvergence {

  import opened Prelude
  import opened ManifestKinds
  import opened ManifestDocuments
  import opened ManifestApply
  import opened ManifestServer

  // ----- documents of the fragment -----

  /** What a document is about: two documents with the same key address the same entity. */
  datatype Key = SliKey(name: string) | SloKey(name: string) | RowKey(target: Target, sloName: string) | NoKey

  function KeyOf(doc: Document): Key {
    match doc.spec
    case SliSpec(_, _, _, _, _, _) => SliKey(doc.name)
    case SloSpec(_, _, _) => SloKey(doc.name)
    case AssignmentSpec(target, sloName, _) => RowKey(target, sloName)
    case OtherSpec => NoKey
  }

  predicate InFragment(doc: Document) {
    match doc.spec
    case SliSpec(_, _, _, _, _, _) => doc.kind == SLI
    case SloSpec(_, _, _) => doc.kind == SLO
    case AssignmentSpec(_, _, _) => doc.kind == SLOAssignment
    case OtherSpec => false
  }

  ghost predicate IsManifest(docs: seq<Document>) {
    && KindSorted(docs)
    && (forall i :: 0 <= i < |docs| ==> InFragment(docs[i]))
    && (forall i, j :: 0 <= i < j < |docs| ==> KeyOf(docs[i]) != KeyOf(docs[j]))
  }

  /** Both threshold lists are spelled out. */
  predicate IsSpelled(o: Objective) {
    o.Objective? ==> o.passThreshold.Some? && o.warningThreshold.Some?
  }

  /** The thresholds of the total score, where they are given, are not quoted. */
  predicate IsUnquoted(f: Field<Number>) {
    f.Given? ==> f.value.Plain?
  }

  /**
    * What a document must be like for the diff to come to rest: its name can be looked up, an SLI document's
    * indicators are not an explicit null, and an SLO document spells out its threshold lists and does not
    * quote its total scores.
    */
  predicate Settles(doc: Document) {
    match doc.spec
    case SliSpec(indicators, _, _, _, _, _) => SliIsReachable(doc.name) && !indicators.Null?
    case SloSpec(objectives, totalScore, _) =>
      && SloIsReachable(doc.name)
      && AllSpelledOut(Or(objectives, []))
      && IsUnquoted(PassThreshold(totalScore)) && IsUnquoted(WarningThreshold(totalScore))
    case _ => true
  }

  predicate AllSpelledOut(os: seq<Objective>) {
    forall k :: 0 <= k < |os| ==> IsSpelled(os[k])
  }

  // ----- one document -----

  /** The client's null for an omitted threshold list never equals the server's empty list. */
  lemma NormalFormsAgree(os: seq<Objective>)
    requires AllRead(os)
    ensures NormalInputs(os) == NormalReads(StoreObjectives(os)) <==> AllSpelledOut(os)
  {
    var a, b := NormalInputs(os), NormalReads(StoreObjectives(os));
    forall k | 0 <= k < |os| ensures a[k] == b[k] <==> IsSpelled(os[k]) {}
    if a == b {
      forall k | 0 <= k < |os| ensures IsSpelled(os[k]) {
        assert a[k] == b[k];
      }
    }
  }

  /** The diff sees an edit if and only if it changes the normal objectives, a total score or the comparison. */
  lemma EditIsSeenIff(spec: Spec, spec': Spec, stored: StoredSlo)
    requires spec.SloSpec? && ObjectivesRead(spec) && !SloDiffers(spec, stored)
    requires spec'.SloSpec? && ObjectivesRead(spec')
    ensures SloDiffers(spec', stored)
       <==> || NormalInputs(Or(spec'.objectives, [])) != NormalInputs(Or(spec.objectives, []))
            || PassThreshold(spec'.totalScore) != PassThreshold(spec.totalScore)
            || WarningThreshold(spec'.totalScore) != WarningThreshold(spec.totalScore)
            || Or(spec'.comparison, NO_COMPARISON) != Or(spec.comparison, NO_COMPARISON)
  {}

  /** Editing nothing but change-point blocks is invisible to the diff. */
  lemma ChangePointEditIsInvisible(spec: Spec, spec': Spec, stored: StoredSlo)
    requires spec.SloSpec? && spec.objectives.Some? && AllRead(spec.objectives.value)
    requires spec'.SloSpec? && spec'.objectives.Some? && spec' == spec.(objectives := spec'.objectives)
    requires |spec'.objectives.value| == |spec.objectives.value|
    requires forall k :: 0 <= k < |spec.objectives.value| ==>
               && spec'.objectives.value[k].Objective?
               && spec'.objectives.value[k]
                 == spec.objectives.value[k].(changePoint := spec'.objectives.value[k].changePoint)
    ensures SloDiffers(spec', stored) <==> SloDiffers(spec, stored)
  {
    var a, b := NormalInputs(spec.objectives.value), NormalInputs(spec'.objectives.value);
    assert forall k :: 0 <= k < |a| ==> a[k] == b[k];
    assert a == b;
  }

  /** The document's entity is as the document asks, as far as lookup and diff can tell. */
  predicate Reached(s: Server, doc: Document) {
    match Examine(s, doc)
    case Same => Settles(doc)
    case Different => !Settles(doc)
    case Absent => !Settles(doc)
    case Unanswerable => false
  }

  lemma ReconcileKeepsWf(accepts: (Server, Document) -> bool, s: Server, doc: Document)
    requires Wf(s)
    ensures Wf(ReconcileOne(accepts, s, doc).0)
  {
    hide Wf;
    if doc.spec.AssignmentSpec? {
      RepointKeepsWf(s, doc.spec);
      CreateKeepsWf(s, doc.spec);
    } else if doc.spec.SliSpec? || doc.spec.SloSpec? {
      SendKeepsWf(accepts, s, doc, Created);
      SendKeepsWf(accepts, s, doc, Updated);
    }
  }

  lemma SendKeepsWf(accepts: (Server, Document) -> bool, s: Server, doc: Document, outcome: Outcome)
    requires Wf(s) && (doc.spec.SliSpec? || doc.spec.SloSpec?)
    ensures Wf(SendDefinition(accepts, s, doc, outcome).0)
  {
    if doc.spec.SloSpec? && SloIsSendable(doc.spec) {
      AppendSloKeepsWf(s, doc.name, doc.spec);
    }
  }

  lemma AppendSloKeepsWf(s: Server, name: string, spec: Spec)
    requires Wf(s) && spec.SloSpec? && SloIsSendable(spec)
    ensures Wf(AppendSlo(s, name, spec))
  {
    var s' := AppendSlo(s, name, spec);
    forall n, v | n in s'.slos && 0 <= v < |s'.slos[n]|
      ensures s'.slos[n][v].id == s.nextId || (n in s.slos && v < |s.slos[n]| && s'.slos[n][v] == s.slos[n][v])
    {}
  }

  lemma CreateKeepsWf(s: Server, spec: Spec)
    requires Wf(s) && spec.AssignmentSpec?
    ensures Wf(CreateAssignment(s, spec).0)
  {
    if LatestSlo(s, spec.sloName).Some? {
      assert LatestSlo(s, spec.sloName).value.id < s.nextId;
    }
  }

  lemma RepointKeepsWf(s: Server, spec: Spec)
    requires Wf(s) && spec.AssignmentSpec?
    ensures Wf(Repoint(s, spec).0)
  {
    if LatestSlo(s, spec.sloName).Some? {
      assert LatestSlo(s, spec.sloName).value.id < s.nextId;
    }
    var key := (spec.target, spec.sloName);
    if key in s.rows && spec.target.GroupTarget? {
      RowIdIsNoDefinition(s, key);
    }
  }

  lemma RowIdIsNoDefinition(s: Server, key: (Target, string))
    requires Wf(s) && key in s.rows
    ensures !IsDefinition(s, s.rows[key].id)
  {}

  /**
    * Repointing a stale assignment fails exactly for groups, whose row id is taken for a definition id; then
    * nothing changes.
    */
  lemma RepointFailsIffGroup(accepts: (Server, Document) -> bool, s: Server, doc: Document)
    requires Wf(s) && doc.spec.AssignmentSpec? && Examine(s, doc) == Different
    ensures ReconcileOne(accepts, s, doc).1.Failed? <==> doc.spec.target.GroupTarget?
    ensures doc.spec.target.GroupTarget? ==> ReconcileOne(accepts, s, doc).0 == s
  {
    RowIdIsNoDefinition(s, (doc.spec.target, doc.spec.sloName));
  }

  /** Where the diff is at rest, the document is one that settles. */
  lemma SameSettles(s: Server, doc: Document)
    requires InFragment(doc) && Examine(s, doc) == Same
    ensures Settles(doc)
  {
    if doc.spec.SloSpec? {
      var os, stored := Or(doc.spec.objectives, []), GetSlo(s, doc.name).value;
      forall k | 0 <= k < |os| ensures IsSpelled(os[k]) {
        assert NormalInputs(os)[k] == NormalReads(stored.objectives)[k];
      }
    }
  }

  lemma NewSloDiffersIff(doc: Document, id: nat)
    requires doc.spec.SloSpec? && SloIsSendable(doc.spec) && SloIsReachable(doc.name)
    ensures SloDiffers(doc.spec, NewSlo(id, doc.spec)) <==> !Settles(doc)
  {
    NormalFormsAgree(doc.spec.objectives.value);
  }

  lemma NewSliDiffersIff(doc: Document, id: nat)
    requires doc.spec.SliSpec? && SliIsSendable(doc.spec) && SliIsReachable(doc.name)
    ensures SliDiffers(doc.spec, NewSli(id, doc.spec)) <==> !Settles(doc)
  {}

  /** A document that did not fail has reached its goal, and its outcome says what was found. */
  lemma ReconcileReaches(accepts: (Server, Document) -> bool, s: Server, doc: Document)
    requires Wf(s) && InFragment(doc) && !ReconcileOne(accepts, s, doc).1.Failed?
    ensures Reached(ReconcileOne(accepts, s, doc).0, doc)
    ensures
      var outcome := ReconcileOne(accepts, s, doc).1;
      && (outcome == Skipped <==> Examine(s, doc) == Same)
      && (outcome == Updated <==> Examine(s, doc) == Different)
      && (outcome == Created <==> Examine(s, doc) == Absent)
  {
    if Examine(s, doc) == Same {
      SameSettles(s, doc);
    } else if doc.spec.SliSpec? {
      SentSliReaches(s, doc);
    } else if doc.spec.SloSpec? {
      SentSloReaches(s, doc);
    } else if Examine(s, doc) == Different {
      RepointFailsIffGroup(accepts, s, doc);
    }
  }

  lemma SentSliReaches(s: Server, doc: Document)
    requires doc.spec.SliSpec? && SliIsSendable(doc.spec)
    ensures Reached(AppendSli(s, doc.name, doc.spec), doc)
  {
    if SliIsReachable(doc.name) { NewSliDiffersIff(doc, s.nextId); }
  }

  lemma SentSloReaches(s: Server, doc: Document)
    requires doc.spec.SloSpec? && SloIsSendable(doc.spec)
    ensures Reached(AppendSlo(s, doc.name, doc.spec), doc)
  {
    if SloIsReachable(doc.name) { NewSloDiffersIff(doc, s.nextId); }
  }

  /** A document's reconciliation touches the entity of its key and no other. */
  ghost predicate OnlyTouches(s: Server, s': Server, doc: Document) {
    && (forall n :: SliKey(n) != KeyOf(doc) ==> LatestSli(s', n) == LatestSli(s, n))
    && (forall n :: SloKey(n) != KeyOf(doc) ==> LatestSlo(s', n) == LatestSlo(s, n))
    && (forall t, n :: RowKey(t, n) != KeyOf(doc) ==> RowOf(s', t, n) == RowOf(s, t, n))
    && s'.assets == s.assets && s'.groups == s.groups && s'.nextId >= s.nextId
  }

  function RowOf(s: Server, t: Target, n: string): Option<Row> {
    if (t, n) in s.rows then Some(s.rows[(t, n)]) else None
  }

  lemma SendOnlyTouches(accepts: (Server, Document) -> bool, s: Server, doc: Document, outcome: Outcome)
    requires doc.spec.SliSpec? || doc.spec.SloSpec?
    ensures OnlyTouches(s, SendDefinition(accepts, s, doc, outcome).0, doc)
  {}

  lemma AssignOnlyTouches(s: Server, doc: Document)
    requires Wf(s) && doc.spec.AssignmentSpec?
    ensures OnlyTouches(s, CreateAssignment(s, doc.spec).0, doc)
    ensures doc.spec.target.AssetTarget? ==> OnlyTouches(s, Repoint(s, doc.spec).0, doc)
  {}

  lemma ReconcileOnlyTouches(accepts: (Server, Document) -> bool, s: Server, doc: Document)
    requires Wf(s) && InFragment(doc)
    ensures OnlyTouches(s, ReconcileOne(accepts, s, doc).0, doc)
  {
    if doc.spec.AssignmentSpec? {
      AssignOnlyTouches(s, doc);
      if Examine(s, doc) == Different {
        RepointFailsIffGroup(accepts, s, doc);
      }
    } else {
      SendOnlyTouches(accepts, s, doc, Created);
      SendOnlyTouches(accepts, s, doc, Updated);
    }
  }

  /** Reconciling another document leaves this one's finding alone, unless it renews the SLO of an assignment. */
  lemma ExamineStays(s: Server, s': Server, doc: Document, other: Document)
    requires OnlyTouches(s, s', other) && InFragment(doc) && KeyOf(other) != KeyOf(doc)
    requires doc.spec.AssignmentSpec? ==> KeyOf(other) != SloKey(doc.spec.sloName)
    ensures Examine(s', doc) == Examine(s, doc)
  {
    if doc.spec.AssignmentSpec? {
      assert RowOf(s', doc.spec.target, doc.spec.sloName) == RowOf(s, doc.spec.target, doc.spec.sloName);
    }
  }

  // ----- the whole manifest -----

  ghost function ServerAt(accepts: (Server, Document) -> bool, s: Server, docs: seq<Document>, n: nat): Server
    requires n <= |docs|
  {
    At(Reconciler(accepts), s, docs, n).server
  }

  ghost function DisposalsOf(accepts: (Server, Document) -> bool, s: Server, docs: seq<Document>): (d: seq<Disposal>)
    ensures |d| == |docs|
  {
    After(Reconciler(accepts), s, docs).disposals
  }

  ghost predicate FailureFree(accepts: (Server, Document) -> bool, s: Server, docs: seq<Document>) {
    NoneFailed(DisposalsOf(accepts, s, docs))
  }

  /** In a failure-free apply, document i is reconciled against the server the earlier ones left. */
  lemma StepAt(accepts: (Server, Document) -> bool, s: Server, docs: seq<Document>, i: nat)
    requires FailureFree(accepts, s, docs) && i < |docs|
    ensures
      var (s', outcome) := ReconcileOne(accepts, ServerAt(accepts, s, docs, i), docs[i]);
      && ServerAt(accepts, s, docs, i + 1) == s'
      && !outcome.Failed?
      && DisposalsOf(accepts, s, docs)[i] == Did(outcome)
  {
    DisposalAt(Reconciler(accepts), s, docs, |docs|, i);
    assert DisposalsOf(accepts, s, docs)[i].Did?;
    assert At(Reconciler(accepts), s, docs, i + 1)
      == Advance(Reconciler(accepts), At(Reconciler(accepts), s, docs, i), docs[i]);
  }

  lemma {:induction false} WfAt(accepts: (Server, Document) -> bool, s: Server, docs: seq<Document>, n: nat)
    requires Wf(s) && FailureFree(accepts, s, docs) && n <= |docs|
    ensures Wf(ServerAt(accepts, s, docs, n))
  {
    if n > 0 {
      WfAt(accepts, s, docs, n - 1);
      StepAt(accepts, s, docs, n - 1);
      ReconcileKeepsWf(accepts, ServerAt(accepts, s, docs, n - 1), docs[n - 1]);
    }
  }

  lemma ManifestOrder(docs: seq<Document>, i: nat, j: nat)
    requires IsManifest(docs) && i < j < |docs|
    ensures InFragment(docs[i]) && InFragment(docs[j]) && KeyOf(docs[i]) != KeyOf(docs[j])
    ensures docs[i].spec.AssignmentSpec? ==> !docs[j].spec.SloSpec?
  {
    assert Rank(docs[i].kind) <= Rank(docs[j].kind);
  }

  /** From its own turn on, a document's finding no longer changes. */
  lemma {:induction false} ReachedAt(accepts: (Server, Document) -> bool, s: Server, docs: seq<Document>, i: nat,
      n: nat)
    requires Wf(s) && IsManifest(docs) && FailureFree(accepts, s, docs) && i < n <= |docs|
    ensures Reached(ServerAt(accepts, s, docs, n), docs[i])
    decreases n
  {
    var before := ServerAt(accepts, s, docs, n - 1);
    WfAt(accepts, s, docs, n - 1);
    StepAt(accepts, s, docs, n - 1);
    if i == n - 1 {
      ReconcileReaches(accepts, before, docs[i]);
    } else {
      ReachedAt(accepts, s, docs, i, n - 1);
      ManifestOrder(docs, i, n - 1);
      ReconcileOnlyTouches(accepts, before, docs[n - 1]);
      ExamineStays(before, ServerAt(accepts, s, docs, n), docs[i], docs[n - 1]);
    }
  }

  /** If document j is the SLO that document i assigns, it was skipped. */
  predicate IsQuiet(docs: seq<Document>, disposals: seq<Disposal>, j: nat, i: nat)
    requires i < |docs| == |disposals| && j < |docs|
  {
    docs[i].spec.AssignmentSpec? && KeyOf(docs[j]) == SloKey(docs[i].spec.sloName) ==> disposals[j] == Did(Skipped)
  }

  /** Until its own turn, a document that is no assignment is found as it was at the start. */
  lemma {:induction false} UntouchedUntil(accepts: (Server, Document) -> bool, s: Server, docs: seq<Document>, i: nat,
      n: nat)
    requires Wf(s) && IsManifest(docs) && FailureFree(accepts, s, docs) && n <= i < |docs|
    requires forall j :: 0 <= j < n ==> IsQuiet(docs, DisposalsOf(accepts, s, docs), j, i)
    ensures Examine(ServerAt(accepts, s, docs, n), docs[i]) == Examine(s, docs[i])
    decreases n
  {
    hide ReconcileOne, Wf, IsManifest, FailureFree;
    if n > 0 {
      UntouchedUntil(accepts, s, docs, i, n - 1);
      UntouchedBy(accepts, s, docs, i, n - 1);
    }
  }

  /** Document n, before document i, leaves what is found for i as it is. */
  lemma UntouchedBy(accepts: (Server, Document) -> bool, s: Server, docs: seq<Document>, i: nat, n: nat)
    requires Wf(s) && IsManifest(docs) && FailureFree(accepts, s, docs) && n < i < |docs|
    requires IsQuiet(docs, DisposalsOf(accepts, s, docs), n, i)
    ensures Examine(ServerAt(accepts, s, docs, n + 1), docs[i]) == Examine(ServerAt(accepts, s, docs, n), docs[i])
  {
    var before := ServerAt(accepts, s, docs, n);
    WfAt(accepts, s, docs, n);
    StepAt(accepts, s, docs, n);
    if docs[i].spec.AssignmentSpec? && KeyOf(docs[n]) == SloKey(docs[i].spec.sloName) {
      ReconcileReaches(accepts, before, docs[n]);
    } else {
      ReconcileOnlyTouches(accepts, before, docs[n]);
      ExamineStays(before, ServerAt(accepts, s, docs, n + 1), docs[i], docs[n]);
    }
  }

  // ----- convergence -----

  /** The assignment exists and is pinned to the newest definition of its SLO. */
  predicate IsPinnedToLatest(s: Server, doc: Document)
    requires doc.spec.AssignmentSpec?
  {
    var key := (doc.spec.target, doc.spec.sloName);
    && key in s.rows
    && LatestSlo(s, doc.spec.sloName).Some?
    && s.rows[key].definition == LatestSlo(s, doc.spec.sloName).value.id
  }

  ghost predicate AllSettle(docs: seq<Document>) {
    forall i :: 0 <= i < |docs| ==> Settles(docs[i])
  }

  ghost predicate AllSkipped(disposals: seq<Disposal>) {
    forall i :: 0 <= i < |disposals| ==> disposals[i] == Did(Skipped)
  }

  ghost predicate AllReached(s: Server, docs: seq<Document>) {
    forall i :: 0 <= i < |docs| ==> Reached(s, docs[i])
  }

  /** After a failure-free apply every assignment of the manifest is pinned to its SLO's latest version. */
  lemma ApplyPinsToLatest(accepts: (Server, Document) -> bool, s: Server, docs: seq<Document>)
    requires Wf(s) && IsManifest(docs) && FailureFree(accepts, s, docs)
    ensures AllReached(ServerAt(accepts, s, docs, |docs|), docs)
    ensures forall i :: 0 <= i < |docs| && docs[i].spec.AssignmentSpec? ==>
      IsPinnedToLatest(ServerAt(accepts, s, docs, |docs|), docs[i])
  {
    forall i | 0 <= i < |docs| ensures Reached(ServerAt(accepts, s, docs, |docs|), docs[i]) {
      ReachedAt(accepts, s, docs, i, |docs|);
    }
  }

  /** A dry run after a failure-free apply plans only SKIP exactly when every document is one that settles. */
  lemma DryRunAfterApply(accepts: (Server, Document) -> bool, s: Server, docs: seq<Document>)
    requires Wf(s) && IsManifest(docs) && FailureFree(accepts, s, docs)
    ensures (forall i :: 0 <= i < |docs| ==> Plan(ServerAt(accepts, s, docs, |docs|), docs[i]) == SKIP)
      <==> AllSettle(docs)
  {
    var done := ServerAt(accepts, s, docs, |docs|);
    ApplyPinsToLatest(accepts, s, docs);
    assert forall i :: 0 <= i < |docs| ==> Reached(done, docs[i]);
    forall i | 0 <= i < |docs| ensures Plan(done, docs[i]) == SKIP <==> Settles(docs[i]) {
      assert Reached(done, docs[i]);
    }
  }

  /** On a server where every document is found as it should be, the loop skips and changes nothing. */
  lemma {:induction false} SettledIsSkipped(accepts: (Server, Document) -> bool, s: Server, docs: seq<Document>, n: nat)
    requires n <= |docs| && forall i :: 0 <= i < |docs| ==> Examine(s, docs[i]) == Same
    ensures
      var p := At(Reconciler(accepts), s, docs, n);
      p.server == s && p.blocked == {} && AllSkipped(p.disposals)
  {
    if n > 0 {
      SettledIsSkipped(accepts, s, docs, n - 1);
    }
  }

  /** A second apply after a failure-free one skips everything exactly when every document is one that settles. */
  lemma SecondApply(accepts: (Server, Document) -> bool, s: Server, docs: seq<Document>)
    requires Wf(s) && IsManifest(docs) && FailureFree(accepts, s, docs)
    ensures
      var done := ServerAt(accepts, s, docs, |docs|);
      && (AllSkipped(DisposalsOf(accepts, done, docs)) <==> AllSettle(docs))
      && (AllSettle(docs) ==> ServerAt(accepts, done, docs, |docs|) == done)
  {
    var done := ServerAt(accepts, s, docs, |docs|);
    ApplyPinsToLatest(accepts, s, docs);
    WfAt(accepts, s, docs, |docs|);
    if AllSettle(docs) {
      forall i | 0 <= i < |docs| ensures Examine(done, docs[i]) == Same { assert Reached(done, docs[i]); }
      SettledIsSkipped(accepts, done, docs, |docs|);
    } else if AllSkipped(DisposalsOf(accepts, done, docs)) {
      var i :| 0 <= i < |docs| && !Settles(docs[i]);
      assert Reached(done, docs[i]);
      assert NoneFailed(DisposalsOf(accepts, done, docs));
      UntouchedUntil(accepts, done, docs, i, i);
      StepAt(accepts, done, docs, i);
      WfAt(accepts, done, docs, i);
      ReconcileReaches(accepts, ServerAt(accepts, done, docs, i), docs[i]);
    }
  }

  // ----- documents that do not settle -----

  const EMPTY_SERVER := Server(map[], map[], map[], {}, {}, {}, 0)

  /** An aggregated SLI document whose `indicators:` key is blank. */
  const BLANK_INDICATORS :=
    Document(SLI, "cpu", SliSpec(Null, Given("aggregated"), Some("rate(cpu[1m])"), Some("1m"), Some(["p95"]), Omitted))

  /** An SLI document that is unobjectionable but for the slash in its name. */
  const SLASHED_NAME :=
    Document(SLI, "db/cpu", SliSpec(Given(map["cpu" := "up"]), Omitted, None, None, None, Omitted))

  /** An SLO document that spells out its threshold lists and quotes its total score. */
  const QUOTED_SCORE :=
    Document(SLO, "web", SloSpec(Some([Objective("cpu", None, Some(["<80"]), Some(["<90"]), None, None, None)]),
                                 Given(Scores(Given(Quoted(Some(90.0))), Omitted)), None))

  /** Applied to an empty server, the document is created; the next dry run still plans an operation for it. */
  ghost predicate StaysUnsettled(accepts: (Server, Document) -> bool, doc: Document, next: Operation) {
    && FailureFree(accepts, EMPTY_SERVER, [doc])
    && Plan(ServerAt(accepts, EMPTY_SERVER, [doc], 1), doc) == next != SKIP
  }

  lemma UnsettledDocuments(accepts: (Server, Document) -> bool)
    requires forall doc :: accepts(EMPTY_SERVER, doc)
    ensures StaysUnsettled(accepts, BLANK_INDICATORS, UPDATE)
    ensures StaysUnsettled(accepts, SLASHED_NAME, CREATE)
    ensures StaysUnsettled(accepts, QUOTED_SCORE, UPDATE)
  {
    UnsettledSlis(accepts);
    UnsettledSlo(accepts);
  }

  lemma UnsettledSlis(accepts: (Server, Document) -> bool)
    requires forall doc :: accepts(EMPTY_SERVER, doc)
    ensures StaysUnsettled(accepts, BLANK_INDICATORS, UPDATE)
    ensures StaysUnsettled(accepts, SLASHED_NAME, CREATE)
  {
    OneDocument(accepts, EMPTY_SERVER, BLANK_INDICATORS);
    OneDocument(accepts, EMPTY_SERVER, SLASHED_NAME);
    assert SliIsReachable("cpu");
    assert "db/cpu"[2] == '/' && !SliIsReachable("db/cpu");
  }

  lemma UnsettledSlo(accepts: (Server, Document) -> bool)
    requires forall doc :: accepts(EMPTY_SERVER, doc)
    ensures StaysUnsettled(accepts, QUOTED_SCORE, UPDATE)
  {
    OneDocument(accepts, EMPTY_SERVER, QUOTED_SCORE);
    assert SloIsReachable("web");
  }

  /** An apply of one document is its reconciliation. */
  lemma OneDocument(accepts: (Server, Document) -> bool, s: Server, doc: Document)
    ensures ServerAt(accepts, s, [doc], 1) == ReconcileOne(accepts, s, doc).0
    ensures FailureFree(accepts, s, [doc]) <==> !ReconcileOne(accepts, s, doc).1.Failed?
  {
    var reconcile := Reconciler(accepts);
    assert At(reconcile, s, [doc], 0) == Progress(s, {}, [], []);
    assert At(reconcile, s, [doc], 1) == Advance(reconcile, At(reconcile, s, [doc], 0), doc);
    assert DisposalsOf(accepts, s, [doc])[0] == Did(ReconcileOne(accepts, s, doc).1);
  }

  // ----- what the dry run foretells -----

  /** The SLO this assignment follows was given a new version earlier in the same run. */
  ghost predicate SloRenewed(docs: seq<Document>, disposals: seq<Disposal>, doc: Document)
    requires |disposals| == |docs| && doc.spec.AssignmentSpec?
  {
    exists j :: 0 <= j < |docs| && KeyOf(docs[j]) == SloKey(doc.spec.sloName) && disposals[j] == Did(Updated)
  }

  function Performed(p: Operation): Disposal {
    match p
    case CREATE => Did(Created)
    case UPDATE => Did(Updated)
    case SKIP => Did(Skipped)
  }

  ghost predicate SlosOfRowsExist(s: Server) {
    forall key :: key in s.rows ==> LatestSlo(s, key.1).Some?
  }

  /** Failure-free apply does what the dry run said, except that an assignment whose SLO the run renewed is updated. */
  lemma DryRunForetellsApply(accepts: (Server, Document) -> bool, s: Server, docs: seq<Document>, i: nat)
    requires Wf(s) && IsManifest(docs) && FailureFree(accepts, s, docs) && SlosOfRowsExist(s) && i < |docs|
    ensures
      var disposals := DisposalsOf(accepts, s, docs);
      disposals[i] ==
        if docs[i].spec.AssignmentSpec? && Plan(s, docs[i]) == SKIP && SloRenewed(docs, disposals, docs[i])
          then Did(Updated)
        else Performed(Plan(s, docs[i]))
  {
    StepAt(accepts, s, docs, i);
    WfAt(accepts, s, docs, i);
    ReconcileReaches(accepts, ServerAt(accepts, s, docs, i), docs[i]);
    if docs[i].spec.AssignmentSpec? {
      AssignmentFound(accepts, s, docs, i);
    } else {
      UntouchedUntil(accepts, s, docs, i, i);
      assert Examine(s, docs[i]) != Unanswerable;
    }
  }

  /** The row that the assignment asks for and the targets are as they were. */
  predicate KeepsRow(s: Server, s': Server, doc: Document)
    requires doc.spec.AssignmentSpec?
  {
    && RowOf(s', doc.spec.target, doc.spec.sloName) == RowOf(s, doc.spec.target, doc.spec.sloName)
    && s'.assets == s.assets && s'.groups == s.groups
  }

  /** Rows of other keys, and the targets, are as they were when an assignment's turn comes. */
  lemma {:induction false} RowUntouchedUntil(accepts: (Server, Document) -> bool, s: Server, docs: seq<Document>,
      i: nat, n: nat)
    requires Wf(s) && IsManifest(docs) && FailureFree(accepts, s, docs) && n <= i < |docs|
    requires docs[i].spec.AssignmentSpec?
    ensures KeepsRow(s, ServerAt(accepts, s, docs, n), docs[i])
    decreases n
  {
    hide ReconcileOne, Wf, IsManifest, FailureFree;
    if n > 0 {
      RowUntouchedUntil(accepts, s, docs, i, n - 1);
      RowUntouchedBy(accepts, s, docs, i, n - 1);
    }
  }

  lemma RowUntouchedBy(accepts: (Server, Document) -> bool, s: Server, docs: seq<Document>, i: nat, n: nat)
    requires Wf(s) && IsManifest(docs) && FailureFree(accepts, s, docs) && n < i < |docs|
    requires docs[i].spec.AssignmentSpec?
    ensures KeepsRow(ServerAt(accepts, s, docs, n), ServerAt(accepts, s, docs, n + 1), docs[i])
  {
    WfAt(accepts, s, docs, n);
    StepAt(accepts, s, docs, n);
    ManifestOrder(docs, n, i);
    ReconcileOnlyTouches(accepts, ServerAt(accepts, s, docs, n), docs[n]);
  }

  /** The SLO was given a new version by one of the first n documents. */
  ghost predicate RenewedBy(docs: seq<Document>, disposals: seq<Disposal>, name: string, n: nat)
    requires |disposals| == |docs|
  {
    exists j :: 0 <= j < n && j < |docs| && KeyOf(docs[j]) == SloKey(name) && disposals[j] == Did(Updated)
  }

  lemma RenewedStep(docs: seq<Document>, disposals: seq<Disposal>, name: string, n: nat)
    requires |disposals| == |docs| && n < |docs|
    ensures RenewedBy(docs, disposals, name, n + 1)
       <==> RenewedBy(docs, disposals, name, n) || (KeyOf(docs[n]) == SloKey(name) && disposals[n] == Did(Updated))
  {}

  /** Definition ids only grow: an SLO's latest one changes exactly when a document of the run renews it. */
  lemma {:induction false} LatestIdAt(accepts: (Server, Document) -> bool, s: Server, docs: seq<Document>,
      name: string, n: nat)
    requires Wf(s) && IsManifest(docs) && FailureFree(accepts, s, docs) && n <= |docs|
    requires SloIsReachable(name) && LatestSlo(s, name).Some?
    ensures
      var s' := ServerAt(accepts, s, docs, n);
      && s'.nextId >= s.nextId && LatestSlo(s', name).Some?
      && (if RenewedBy(docs, DisposalsOf(accepts, s, docs), name, n) then LatestSlo(s', name).value.id >= s.nextId
          else LatestSlo(s', name) == LatestSlo(s, name))
  {
    hide ReconcileOne, Wf, IsManifest, FailureFree;
    if n > 0 {
      LatestIdAt(accepts, s, docs, name, n - 1);
      LatestInRun(accepts, s, docs, name, n - 1);
      RenewedStep(docs, DisposalsOf(accepts, s, docs), name, n - 1);
    }
  }

  lemma LatestInRun(accepts: (Server, Document) -> bool, s: Server, docs: seq<Document>, name: string, n: nat)
    requires Wf(s) && IsManifest(docs) && FailureFree(accepts, s, docs) && n < |docs|
    requires SloIsReachable(name) && LatestSlo(ServerAt(accepts, s, docs, n), name).Some?
    ensures
      var before, after := ServerAt(accepts, s, docs, n), ServerAt(accepts, s, docs, n + 1);
      && after.nextId >= before.nextId && LatestSlo(after, name).Some?
      && (if KeyOf(docs[n]) == SloKey(name) && DisposalsOf(accepts, s, docs)[n] == Did(Updated)
          then LatestSlo(after, name).value.id == before.nextId
          else LatestSlo(after, name) == LatestSlo(before, name))
  {
    WfAt(accepts, s, docs, n);
    StepAt(accepts, s, docs, n);
    LatestStep(accepts, ServerAt(accepts, s, docs, n), docs[n], name);
  }

  lemma LatestStep(accepts: (Server, Document) -> bool, s: Server, doc: Document, name: string)
    requires Wf(s) && InFragment(doc) && SloIsReachable(name) && LatestSlo(s, name).Some?
    requires !ReconcileOne(accepts, s, doc).1.Failed?
    ensures
      var (s', outcome) := ReconcileOne(accepts, s, doc);
      && s'.nextId >= s.nextId && LatestSlo(s', name).Some?
      && (if KeyOf(doc) == SloKey(name) && outcome == Updated then LatestSlo(s', name).value.id == s.nextId
          else LatestSlo(s', name) == LatestSlo(s, name))
  {
    if KeyOf(doc) != SloKey(name) {
      ReconcileOnlyTouches(accepts, s, doc);
    }
  }

  lemma AssignmentNeedsReachableSlo(accepts: (Server, Document) -> bool, s: Server, doc: Document)
    requires doc.spec.AssignmentSpec? && !ReconcileOne(accepts, s, doc).1.Failed?
    ensures SloIsReachable(doc.spec.sloName)
  {}

  lemma AssignmentFound(accepts: (Server, Document) -> bool, s: Server, docs: seq<Document>, i: nat)
    requires Wf(s) && IsManifest(docs) && FailureFree(accepts, s, docs) && SlosOfRowsExist(s) && i < |docs|
    requires docs[i].spec.AssignmentSpec?
    ensures
      var found := Examine(ServerAt(accepts, s, docs, i), docs[i]);
      var plan := Plan(s, docs[i]);
      && (found == Absent <==> plan == CREATE)
      && (found == Different
        <==> plan == UPDATE || (plan == SKIP && SloRenewed(docs, DisposalsOf(accepts, s, docs), docs[i])))
      && found != Unanswerable
  {
    hide ReconcileOne, IsManifest, FailureFree;
    var doc, disposals := docs[i], DisposalsOf(accepts, s, docs);
    var key := (doc.spec.target, doc.spec.sloName);
    StepAt(accepts, s, docs, i);
    AssignmentNeedsReachableSlo(accepts, ServerAt(accepts, s, docs, i), doc);
    RowUntouchedUntil(accepts, s, docs, i, i);
    assert RowOf(s, key.0, key.1).Some? <==> key in s.rows;
    if TargetExists(s, doc.spec.target) && key in s.rows {
      LatestIdAt(accepts, s, docs, doc.spec.sloName, i);
      assert s.rows[key].definition < s.nextId;
      forall j | 0 <= j < |docs| && KeyOf(docs[j]) == SloKey(doc.spec.sloName) ensures j < i {
        if j > i { ManifestOrder(docs, i, j); }
      }
      assert SloRenewed(docs, disposals, doc) <==> RenewedBy(docs, disposals, doc.spec.sloName, i);
    }
  }
}
