/** Manifest documents as YAML gives them: an omitted key, an explicit null and a quoted number stay what they are. */
module ManifestDocuments {

  import opened Prelude
  import opened ManifestKinds

  datatype Target = AssetTarget(name: string) | GroupTarget(name: string)

  /** A key of a mapping whose omission and whose null are told apart. */
  datatype Field<+T> = Omitted | Null | Given(value: T)

  /** A scalar where a number belongs: a number, or a text and the number it spells, if it spells one. */
  datatype Number = Plain(value: real) | Quoted(spelt: Option<real>)

  /**
    * An SLO objective; `changePoint` is its opaque change-point block. Where the client compares objectives it
    * has passed them through its model, so the fields hold what the model reads; one it rejects is `Malformed`.
    */
  datatype Objective =
    | Objective(
        sli: string,
        displayName: Option<string>,
        passThreshold: Option<seq<string>>,
        warningThreshold: Option<seq<string>>,
        weight: Option<int>,
        keySli: Option<bool>,
        changePoint: Option<string>)
    | Malformed

  datatype Scores = Scores(passThreshold: Field<Number>, warningThreshold: Field<Number>)

  datatype Comparison = Comparison(
    compareWith: Option<string>,
    includeResultWithScore: Option<string>,
    numberOfResults: Option<int>,
    aggregateFunction: Option<string>,
    scopeTags: Option<seq<string>>)

  datatype Spec =
    | SliSpec(
        indicators: Field<map<string, string>>,
        mode: Field<string>,
        queryTemplate: Option<string>,
        interval: Option<string>,
        methods: Option<seq<string>>,
        adapterType: Field<string>)
    | SloSpec(objectives: Option<seq<Objective>>, totalScore: Field<Scores>, comparison: Option<Comparison>)
    | AssignmentSpec(target: Target, sloName: string, dataSource: string)
    | OtherSpec

  datatype Document = Document(kind: Kind, name: string, spec: Spec)

  // ----- the stable kind sort -----

  predicate KindSorted(docs: seq<Document>) {
    forall i, j :: 0 <= i < j < |docs| ==> Rank(docs[i].kind) <= Rank(docs[j].kind)
  }

  function OfRank(docs: seq<Document>, r: nat): seq<Document> {
    if docs == [] then []
    else if Rank(docs[0].kind) == r then [docs[0]] + OfRank(docs[1..], r)
    else OfRank(docs[1..], r)
  }

  /** `sorted` by rank: documents of rank r, then r + 1, and so on, each in file order. */
  function SortFrom(docs: seq<Document>, r: nat): seq<Document>
    requires r <= KIND_COUNT
    decreases KIND_COUNT - r
  {
    if r == KIND_COUNT then [] else OfRank(docs, r) + SortFrom(docs, r + 1)
  }

  function TopologicalSort(docs: seq<Document>): seq<Document> {
    SortFrom(docs, 0)
  }

  lemma {:induction false} OfRankMembers(docs: seq<Document>, r: nat)
    ensures forall d :: d in OfRank(docs, r) <==> d in docs && Rank(d.kind) == r
  {
    if docs != [] {
      OfRankMembers(docs[1..], r);
      assert forall d :: d in docs <==> d == docs[0] || d in docs[1..];
    }
  }

  lemma {:induction false} OfRankAppend(a: seq<Document>, b: seq<Document>, r: nat)
    ensures OfRank(a + b, r) == OfRank(a, r) + OfRank(b, r)
  {
    if a == [] {
      assert a + b == b;
    } else {
      assert (a + b)[1..] == a[1..] + b;
      OfRankAppend(a[1..], b, r);
    }
  }

  lemma {:induction false} OfRankOfRank(docs: seq<Document>, r: nat, q: nat)
    ensures OfRank(OfRank(docs, r), q) == if q == r then OfRank(docs, r) else []
  {
    if docs != [] {
      OfRankOfRank(docs[1..], r, q);
      if Rank(docs[0].kind) == r {
        assert OfRank(docs, r)[1..] == OfRank(docs[1..], r);
      }
    }
  }

  lemma {:induction false} SortFromStable(docs: seq<Document>, r: nat, q: nat)
    requires r <= KIND_COUNT && q < KIND_COUNT
    ensures OfRank(SortFrom(docs, r), q) == if q >= r then OfRank(docs, q) else []
    decreases KIND_COUNT - r
  {
    if r < KIND_COUNT {
      SortFromStable(docs, r + 1, q);
      OfRankAppend(OfRank(docs, r), SortFrom(docs, r + 1), q);
      OfRankOfRank(docs, r, q);
    }
  }

  lemma {:induction false} SortFromSorted(docs: seq<Document>, r: nat)
    requires r <= KIND_COUNT
    ensures KindSorted(SortFrom(docs, r))
    ensures forall d :: d in SortFrom(docs, r) <==> d in docs && Rank(d.kind) >= r
    decreases KIND_COUNT - r
  {
    if r < KIND_COUNT {
      SortFromSorted(docs, r + 1);
      OfRankMembers(docs, r);
      AppendSorted(OfRank(docs, r), SortFrom(docs, r + 1), r);
    }
  }

  lemma AppendSorted(a: seq<Document>, b: seq<Document>, r: nat)
    requires forall d :: d in a ==> Rank(d.kind) == r
    requires KindSorted(b) && forall d :: d in b ==> Rank(d.kind) > r
    ensures KindSorted(a + b)
  {
    var c := a + b;
    forall i, j | 0 <= i < j < |c| ensures Rank(c[i].kind) <= Rank(c[j].kind) {
      if j < |a| {
        assert c[i] in a && c[j] in a;
      } else if i < |a| {
        assert c[i] in a && c[j] in b;
      }
    }
  }

  lemma {:induction false} SortFromPermutes(docs: seq<Document>, r: nat, d: Document)
    requires r <= KIND_COUNT
    ensures multiset(SortFrom(docs, r))[d] == if Rank(d.kind) >= r then multiset(docs)[d] else 0
    decreases KIND_COUNT - r
  {
    if r < KIND_COUNT {
      SortFromPermutes(docs, r + 1, d);
      OfRankPermutes(docs, r, d);
    }
  }

  lemma {:induction false} OfRankPermutes(docs: seq<Document>, r: nat, d: Document)
    ensures multiset(OfRank(docs, r))[d] == if Rank(d.kind) == r then multiset(docs)[d] else 0
  {
    if docs != [] {
      OfRankPermutes(docs[1..], r, d);
      assert docs == [docs[0]] + docs[1..];
    }
  }

  /** The sort orders by kind, loses and adds nothing, and keeps file order within each kind. */
  lemma TopologicalSortIsStable(docs: seq<Document>)
    ensures KindSorted(TopologicalSort(docs))
    ensures multiset(TopologicalSort(docs)) == multiset(docs)
    ensures forall q :: 0 <= q < KIND_COUNT ==> OfRank(TopologicalSort(docs), q) == OfRank(docs, q)
  {
    SortFromSorted(docs, 0);
    forall d ensures multiset(TopologicalSort(docs))[d] == multiset(docs)[d] {
      SortFromPermutes(docs, 0, d);
    }
    forall q | 0 <= q < KIND_COUNT ensures OfRank(TopologicalSort(docs), q) == OfRank(docs, q) {
      SortFromStable(docs, 0, q);
    }
  }
}
