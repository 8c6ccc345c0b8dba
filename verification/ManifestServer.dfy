/**
 What the reconciler does with SLI, SLO and SLOAssignment documents, against a server that keeps
 versioned definitions and version-pinned assignments.
 */
module ManifestServer {

  import opened Prelude
  import opened ManifestKinds
  import opened ManifestDocuments
  import opened ManifestApply

  // ----- the server -----

  datatype StoredSli = StoredSli(
    id: nat,
    indicators: map<string, string>,
    mode: string,
    queryTemplate: Option<string>,
    interval: Option<string>,
    methods: Option<seq<string>>,
    adapterType: string)

  /** As the API returns it: thresholds are lists, never null, and the change-point block is not shown. */
  datatype StoredObjective = StoredObjective(
    sli: string,
    displayName: string,
    passThreshold: seq<string>,
    warningThreshold: seq<string>,
    weight: int,
    keySli: bool)

  datatype StoredSlo = StoredSlo(
    id: nat,
    objectives: seq<StoredObjective>,
    passThreshold: real,
    warningThreshold: real,
    comparison: Comparison)

  /** An assignment row: its own id, and the id of the SLO definition it is pinned to. */
  datatype Row = Row(id: nat, definition: nat, dataSource: string)

  /** Definitions are lists of versions, newest last. Ids are drawn from one fresh supply. */
  datatype Server = Server(
    slis: map<string, seq<StoredSli>>,
    slos: map<string, seq<StoredSlo>>,
    rows: map<(Target, string), Row>,
    assets: set<string>,
    groups: set<string>,
    dataSources: set<string>,
    nextId: nat)

  ghost predicate Wf(s: Server) {
    && (forall n :: n in s.slis ==> s.slis[n] != [])
    && (forall n :: n in s.slos ==> s.slos[n] != [])
    && (forall n, v :: n in s.slos && 0 <= v < |s.slos[n]| ==> s.slos[n][v].id < s.nextId)
    && (forall k :: k in s.rows ==> s.rows[k].id < s.nextId && s.rows[k].definition < s.nextId)
    && (forall k, n, v :: k in s.rows && n in s.slos && 0 <= v < |s.slos[n]| ==> s.slos[n][v].id != s.rows[k].id)
  }

  function LatestSli(s: Server, name: string): Option<StoredSli> {
    if name in s.slis && s.slis[name] != [] then Some(s.slis[name][|s.slis[name]| - 1]) else None
  }

  function LatestSlo(s: Server, name: string): Option<StoredSlo> {
    if name in s.slos && s.slos[name] != [] then Some(s.slos[name][|s.slos[name]| - 1]) else None
  }

  // ----- looking up by name -----

  /** The name is one segment of a path. */
  predicate IsSegment(name: string) {
    name != "" && '/' !in name
  }

  /** GET /sli-definitions/{name} reaches its entity: the name is a segment, and not that of a fixed route. */
  predicate SliIsReachable(name: string) {
    IsSegment(name) && name != "tag-keys" && name != "tag-values"
  }

  /** GET /slo-definitions/{name:path} takes slashes too, but other routes come first. */
  predicate SloIsReachable(name: string) {
    name != "tag-keys" && name != "tag-values" && !EndsWith(name, "/versions")
  }

  predicate EndsWith(s: string, suffix: string) {
    |s| >= |suffix| && s[|s| - |suffix|..] == suffix
  }

  /** An unreachable name is answered with something that is no definition, or not at all. */
  function GetSli(s: Server, name: string): Option<StoredSli> {
    if SliIsReachable(name) then LatestSli(s, name) else None
  }

  function GetSlo(s: Server, name: string): Option<StoredSlo> {
    if SloIsReachable(name) then LatestSlo(s, name) else None
  }

  predicate TargetExists(s: Server, t: Target) {
    match t
    case AssetTarget(name) => IsSegment(name) && name in s.assets
    case GroupTarget(name) => IsSegment(name) && name in s.groups
  }

  predicate IsDefinition(s: Server, id: nat) {
    exists n, v :: n in s.slos && 0 <= v < |s.slos[n]| && s.slos[n][v].id == id
  }

  // ----- comparing a document with what is there -----

  /** Both sides of the API boundary, round-tripped through the client's input model. */
  datatype NormalObjective = NormalObjective(
    sli: string,
    displayName: string,
    passThreshold: Option<seq<string>>,
    warningThreshold: Option<seq<string>>,
    weight: int,
    keySli: bool)

  function Or<T>(o: Option<T>, default: T): T {
    if o.Some? then o.value else default
  }

  function OrDefault<T>(f: Field<T>, default: T): Field<T> {
    if f.Omitted? then Given(default) else f
  }

  predicate AllRead(os: seq<Objective>) {
    forall i :: 0 <= i < |os| ==> os[i].Objective?
  }

  function NormalInput(o: Objective): NormalObjective
    requires o.Objective?
  {
    NormalObjective(o.sli, Or(o.displayName, ""), o.passThreshold, o.warningThreshold, Or(o.weight, 1),
      Or(o.keySli, false))
  }

  function NormalRead(o: StoredObjective): NormalObjective {
    NormalObjective(o.sli, o.displayName, Some(o.passThreshold), Some(o.warningThreshold), o.weight, o.keySli)
  }

  function NormalInputs(os: seq<Objective>): seq<NormalObjective>
    requires AllRead(os)
  {
    seq(|os|, i requires 0 <= i < |os| => NormalInput(os[i]))
  }

  function NormalReads(os: seq<StoredObjective>): seq<NormalObjective> {
    seq(|os|, i requires 0 <= i < |os| => NormalRead(os[i]))
  }

  const DEFAULT_PASS := 90.0
  const DEFAULT_WARNING := 75.0
  const NO_COMPARISON := Comparison(None, None, None, None, None)

  function PassThreshold(t: Field<Scores>): Field<Number> {
    if t.Given? then OrDefault(t.value.passThreshold, Plain(DEFAULT_PASS)) else Given(Plain(DEFAULT_PASS))
  }

  function WarningThreshold(t: Field<Scores>): Field<Number> {
    if t.Given? then OrDefault(t.value.warningThreshold, Plain(DEFAULT_WARNING)) else Given(Plain(DEFAULT_WARNING))
  }

  /** The document's value is compared as it stands: a null or a text is no number. */
  predicate NumberDiffers(f: Field<Number>, stored: real) {
    f != Given(Plain(stored))
  }

  /** The number that is sent: the client's model reads a quoted one, and rejects a null. */
  function NumberSent(f: Field<Number>): Option<real> {
    match f
    case Omitted => None
    case Null => None
    case Given(Plain(value)) => Some(value)
    case Given(Quoted(spelt)) => spelt
  }

  predicate SliDiffers(spec: Spec, stored: StoredSli)
    requires spec.SliSpec?
  {
    || OrDefault(spec.indicators, map[]) != Given(stored.indicators)
    || OrDefault(spec.mode, "raw") != Given(stored.mode)
    || spec.queryTemplate != stored.queryTemplate
    || spec.interval != stored.interval
    || spec.methods != stored.methods
  }

  predicate ObjectivesRead(spec: Spec)
    requires spec.SloSpec?
  {
    AllRead(Or(spec.objectives, []))
  }

  predicate SloDiffers(spec: Spec, stored: StoredSlo)
    requires spec.SloSpec? && ObjectivesRead(spec)
  {
    || NormalInputs(Or(spec.objectives, [])) != NormalReads(stored.objectives)
    || NumberDiffers(PassThreshold(spec.totalScore), stored.passThreshold)
    || NumberDiffers(WarningThreshold(spec.totalScore), stored.warningThreshold)
    || Or(spec.comparison, NO_COMPARISON) != stored.comparison
  }

  /** The outcome of lookup and diff. */
  datatype Finding = Absent | Same | Different | Unanswerable

  function Compare(differs: bool): Finding {
    if differs then Different else Same
  }

  function Examine(s: Server, doc: Document): Finding {
    match doc.spec
    case SliSpec(_, _, _, _, _, _) =>
      var stored := GetSli(s, doc.name);
      if stored.None? then Absent else Compare(SliDiffers(doc.spec, stored.value))
    case SloSpec(_, _, _) =>
      var stored := GetSlo(s, doc.name);
      if stored.None? then Absent
      else if !ObjectivesRead(doc.spec) then Unanswerable
      else Compare(SloDiffers(doc.spec, stored.value))
    case AssignmentSpec(target, sloName, _) =>
      // listing the assignments of an unknown target fails, which reads as "nothing there"
      if !TargetExists(s, target) || (target, sloName) !in s.rows then Absent
      else
        var latest := GetSlo(s, sloName);
        if latest.None? then Unanswerable else Compare(s.rows[(target, sloName)].definition != latest.value.id)
    case OtherSpec => Unanswerable
  }

  // ----- creating and updating -----

  function StoreObjective(o: Objective): StoredObjective
    requires o.Objective?
  {
    StoredObjective(o.sli, Or(o.displayName, ""), Or(o.passThreshold, []), Or(o.warningThreshold, []), Or(o.weight, 1),
                    Or(o.keySli, false))
  }

  function StoreObjectives(os: seq<Objective>): seq<StoredObjective>
    requires AllRead(os)
  {
    seq(|os|, i requires 0 <= i < |os| => StoreObjective(os[i]))
  }

  /** What the client's model of an SLI definition accepts: it has no null mode and no null adapter type. */
  predicate SliIsSendable(spec: Spec)
    requires spec.SliSpec?
  {
    !spec.mode.Null? && !spec.adapterType.Null?
  }

  /** What the client's code and its model of an SLO definition accept. */
  predicate SloIsSendable(spec: Spec)
    requires spec.SloSpec?
  {
    && !spec.totalScore.Null? && spec.objectives.Some? && AllRead(spec.objectives.value)
    && NumberSent(PassThreshold(spec.totalScore)).Some? && NumberSent(WarningThreshold(spec.totalScore)).Some?
  }

  /** Null indicators are not sent, and the server stores its default. */
  function NewSli(id: nat, spec: Spec): StoredSli
    requires spec.SliSpec? && SliIsSendable(spec)
  {
    StoredSli(id, if spec.indicators.Given? then spec.indicators.value else map[], OrDefault(spec.mode, "raw").value,
              spec.queryTemplate, spec.interval, spec.methods, OrDefault(spec.adapterType, "prometheus").value)
  }

  function NewSlo(id: nat, spec: Spec): StoredSlo
    requires spec.SloSpec? && SloIsSendable(spec)
  {
    StoredSlo(id, StoreObjectives(spec.objectives.value), NumberSent(PassThreshold(spec.totalScore)).value,
              NumberSent(WarningThreshold(spec.totalScore)).value, Or(spec.comparison, NO_COMPARISON))
  }

  /** POST /sli-definitions: one more version. */
  function AppendSli(s: Server, name: string, spec: Spec): Server
    requires spec.SliSpec? && SliIsSendable(spec)
  {
    var versions := if name in s.slis then s.slis[name] else [];
    s.(slis := s.slis[name := versions + [NewSli(s.nextId, spec)]], nextId := s.nextId + 1)
  }

  function AppendSlo(s: Server, name: string, spec: Spec): Server
    requires spec.SloSpec? && SloIsSendable(spec)
  {
    var versions := if name in s.slos then s.slos[name] else [];
    s.(slos := s.slos[name := versions + [NewSlo(s.nextId, spec)]], nextId := s.nextId + 1)
  }

  /** PUT of an assignment: keyed by definition, with one row per target and SLO name. */
  function PutRow(s: Server, target: Target, sloName: string, definition: nat, dataSource: string): Option<Server> {
    if !TargetExists(s, target) || dataSource !in s.dataSources then None
    else if (target, sloName) in s.rows then
      if s.rows[(target, sloName)].definition == definition then
        Some(s.(rows := s.rows[(target, sloName) := s.rows[(target, sloName)].(dataSource := dataSource)]))
      else None
    else
      Some(s.(rows := s.rows[(target, sloName) := Row(s.nextId, definition, dataSource)], nextId := s.nextId + 1))
  }

  function Answer(s: Server, result: Option<Server>, outcome: Outcome): (Server, Outcome) {
    if result.Some? then (result.value, outcome) else (s, Failed("rejected"))
  }

  /** `accepts` is any further validation, the server's own above all. */
  ghost function SendDefinition(accepts: (Server, Document) -> bool, s: Server, doc: Document,
      outcome: Outcome): (Server, Outcome)
    requires doc.spec.SliSpec? || doc.spec.SloSpec?
  {
    if doc.spec.SliSpec? then
      if SliIsSendable(doc.spec) && accepts(s, doc) then (AppendSli(s, doc.name, doc.spec), outcome)
      else (s, Failed("rejected"))
    else if SloIsSendable(doc.spec) && accepts(s, doc) then (AppendSlo(s, doc.name, doc.spec), outcome)
    else (s, Failed("rejected"))
  }

  ghost function CreateAssignment(s: Server, spec: Spec): (Server, Outcome)
    requires spec.AssignmentSpec?
  {
    var latest := GetSlo(s, spec.sloName);
    if latest.None? then (s, Failed("slo not found"))
    else Answer(s, PutRow(s, spec.target, spec.sloName, latest.value.id, spec.dataSource), Created)
  }

  /** An asset assignment is upgraded in place. A group assignment is deleted by its row id, through
      an endpoint that takes a definition id, and created again. */
  ghost function Repoint(s: Server, spec: Spec): (Server, Outcome)
    requires spec.AssignmentSpec?
  {
    var key := (spec.target, spec.sloName);
    var latest := GetSlo(s, spec.sloName);
    if !TargetExists(s, spec.target) || key !in s.rows then (s, Failed("it no longer exists"))
    else if latest.None? then (s, Failed("slo not found"))
    else
      var row := s.rows[key];
      if spec.target.AssetTarget? then
        (s.(rows := s.rows[key := row.(definition := latest.value.id)]), Updated)
      else if !IsDefinition(s, row.id) then (s, Failed("slo definition not found"))
      else
        var emptied := s.(rows :=
          map k | k in s.rows && !(k.0 == spec.target && s.rows[k].definition == row.id) :: s.rows[k]);
        var (s', outcome) := CreateAssignment(emptied, spec);
        (s', if outcome == Created then Updated else outcome)
  }

  /** One document of the loop in `apply`. */
  ghost function ReconcileOne(accepts: (Server, Document) -> bool, s: Server, doc: Document): (Server, Outcome) {
    match Examine(s, doc)
    case Same => (s, Skipped)
    case Unanswerable => (s, Failed("lookup failed"))
    case Absent => if doc.spec.AssignmentSpec? then CreateAssignment(s, doc.spec) else
                   if doc.spec.OtherSpec? then (s, Failed("not modelled")) else SendDefinition(accepts, s, doc, Created)
    case Different => if doc.spec.AssignmentSpec? then Repoint(s, doc.spec) else
                      if doc.spec.OtherSpec? then (s, Failed("not modelled"))
                      else SendDefinition(accepts, s, doc, Updated)
  }

  ghost function Reconciler(accepts: (Server, Document) -> bool): (Server, Document) -> (Server, Outcome) {
    (s, doc) => ReconcileOne(accepts, s, doc)
  }

  // ----- the plan -----

  datatype Operation = CREATE | UPDATE | SKIP

  /** One action of `dry_run`. */
  function Plan(s: Server, doc: Document): Operation {
    match Examine(s, doc)
    case Absent => CREATE
    case Same => SKIP
    case Different => UPDATE
    case Unanswerable => CREATE
  }

  /** `dry_run`: every document against the same server. */
  method DryRun(s: Server, docs: seq<Document>) returns (actions: seq<Operation>)
    ensures |actions| == |docs| && forall i :: 0 <= i < |docs| ==> actions[i] == Plan(s, docs[i])
  {
    actions := [];
    for n := 0 to |docs|
      invariant |actions| == n && forall i :: 0 <= i < n ==> actions[i] == Plan(s, docs[i])
    {
      actions := actions + [Plan(s, docs[n])];
    }
  }
}
