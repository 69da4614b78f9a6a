/**
 The generation catalog as a value: its tables, its transactions, and what every sequence of
 transactions keeps.

 Rows that belong to one generation are grouped in its `Content`. Fingerprints are modelled by what
 they identify, so two fingerprints are equal exactly when the fingerprinted things are: a source
 fingerprint is the contract itself, and a requirement fingerprint is the specification of the artifact.
 */
module CatalogModel {
  import opened Common

  type GenerationId = string

  /** A member key: server ids contain no slash, so the pair and the joined key determine each other. */
  datatype Tool = Tool(server: string, name: string)

  datatype Role = Lexical | Description | InputSchema | Guidance | Enriched

  /** Where an artifact is attached: a role for one tool, or the one capability hierarchy. */
  datatype Slot = ToolSlot(role: Role, tool: Tool) | HierarchySlot

  /** What identifies a reusable artifact: its kind, dependencies and context. */
  datatype Spec =
    | LexicalSpec(text: string)
    | EmbeddingSpec(provider: string, text: string)
    | GuidanceSpec(source: string)
    | HierarchySpec(items: map<Tool, string>)

  datatype Artifact = Artifact(spec: Spec, payload: string)

  datatype Key = ArtifactKey(slot: Slot) | EnrichedGate(tool: Tool) | CapabilityGate

  datatype Fingerprint =
    | OfSpec(spec: Spec)
    | OfGate(provider: string, source: string)
    | OfSources(sources: map<Tool, string>)

  datatype Requirement = Requirement(expected: Fingerprint, actual: Option<Fingerprint>, complete: bool)

  datatype Member = Member(expected: string, actual: Option<string>, complete: bool)

  datatype Content = Content(
    members: map<Tool, Member>,
    sources: map<Tool, string>,
    requirements: map<Key, Requirement>,
    attached: map<Slot, Artifact>,
    lexical: map<Tool, string>)

  const EmptyContent := Content(map[], map[], map[], map[], map[])

  datatype Status = Staging | Active | Superseded

  /** `sourceSet` is the source-set fingerprint, which promotion writes. */
  datatype Generation = Generation(status: Status, hash: string, sourceSet: Option<map<Tool, string>>, content: Content)

  datatype BatchKind = ToolBatch | CapabilityBatch | ReviewBatch

  /** A work item handed to an agent: for one tool, its contract as it was when the batch was made. */
  datatype Request =
    | ToolRequest(items: seq<(Tool, string)>)
    | CapabilityRequest(tools: set<Tool>)
    | ReviewRequest(proposal: string)

  datatype BatchKey = Ordinal(n: nat) | Global | Review(n: nat, proposal: string)

  /** Batch ids are derived from generation, kind, key and request, and the first three are unique. */
  datatype BatchId = BatchId(generation: GenerationId, kind: BatchKind, key: BatchKey)

  /** What an agent says about one tool; `guidance` is the whole answer, the rest is what is checked. */
  datatype ToolAnswer = ToolAnswer(tool: Tool, purpose: string, alternatives: seq<Tool>, guidance: string)

  datatype Response =
    | ToolResponse(answers: seq<ToolAnswer>)
    | CapabilityResponse(hierarchy: string, proposals: seq<string>)
    | ReviewResponse(resolution: string)

  datatype Batch = Batch(required: bool, request: Request, accepted: Option<Response>)

  datatype Marker = Marker(reason: string, observed: string, markedAt: int)

  datatype Db = Db(
    generations: map<GenerationId, Generation>,
    artifacts: set<Artifact>,
    batches: map<BatchId, Batch>,
    dirty: map<string, Marker>)

  const EmptyDb := Db(map[], {}, map[], map[])

  datatype Error =
    | MissingArgument
    | GenerationExists
    | GenerationNotFound
    | GenerationNotStaging
    | RoutingStateChanged
    | DirtyPartitions
    | GenerationIncomplete
    | SourceFingerprintMismatch
    | DependencyMismatch
    | NotDeclared
    | BatchNotFound
    | BatchConflict
    | ConnectionLost

  // ---------------------------------------------------------------------------------------------
  // Changes to the content of one generation
  // ---------------------------------------------------------------------------------------------

  function SourceRequired(c: Content, t: Tool, expected: string): Content {
    var complete := t in c.members && c.members[t].actual == Some(expected) && c.members[t].complete;
    var actual := if t in c.members then c.members[t].actual else None;
    c.(members := c.members[t := Member(expected, actual, complete)])
  }

  function SourcePut(c: Content, t: Tool, contract: string, complete: bool): Content
    requires t in c.members
  {
    c.(sources := c.sources[t := contract],
       members := c.members[t := Member(c.members[t].expected, Some(contract), complete)])
  }

  /** A requirement that is declared again stays complete only if what fulfilled it is what is expected now. */
  function Required(c: Content, key: Key, expected: Fingerprint): Content {
    var complete := key in c.requirements && c.requirements[key].actual == Some(expected) && c.requirements[key].complete;
    var actual := if key in c.requirements then c.requirements[key].actual else None;
    c.(requirements := c.requirements[key := Requirement(expected, actual, complete)])
  }

  function Satisfied(c: Content, key: Key, actual: Fingerprint): Content
    requires key in c.requirements
  {
    c.(requirements := c.requirements[key := Requirement(c.requirements[key].expected, Some(actual), true)])
  }

  function AttachedTo(c: Content, slot: Slot, a: Artifact): Content {
    c.(attached := c.attached[slot := a])
  }

  function LexicalPut(c: Content, t: Tool, text: string): Content {
    c.(lexical := c.lexical[t := text])
  }

  /** The row tests of promotion: members complete and as expected, and every requirement fulfilled as expected. */
  predicate MembersReady(c: Content) {
    forall t :: t in c.members ==>
      && t in c.sources && c.members[t].complete
      && c.members[t].actual == Some(c.members[t].expected) && c.members[t].expected == c.sources[t]
  }

  predicate RequirementsReady(c: Content) {
    forall k :: k in c.requirements ==>
      c.requirements[k].complete && c.requirements[k].actual == Some(c.requirements[k].expected)
  }

  // ---------------------------------------------------------------------------------------------
  // Transactions
  // ---------------------------------------------------------------------------------------------

  datatype Tx =
    | CreateStaging(id: GenerationId, hash: string)
    | ReconcileStaging(hash: string)
    | SupersedeStaging(id: GenerationId)
    | RequireSource(id: GenerationId, tool: Tool, contract: string)
    | PutSource(id: GenerationId, tool: Tool, contract: string, complete: bool)
    | RequireDependency(id: GenerationId, key: Key, expected: Fingerprint)
    | SatisfyDependency(id: GenerationId, key: Key, actual: Fingerprint)
    | AttachArtifact(id: GenerationId, slot: Slot, artifact: Artifact)
    | PutLexical(id: GenerationId, tool: Tool, text: string)
    | PutArtifact(artifact: Artifact)
    | PutBatches(batches: map<BatchId, Batch>)
    | AcceptBatch(batch: BatchId, response: Response)
    | MarkDirty(partition: string, marker: Marker)
    | ClearDirtyIfUnchanged(partition: string, marker: Marker)
    | Promote(id: GenerationId, hash: string)

  function Rewritten(db: Db, g: GenerationId, c: Content): Db
    requires g in db.generations
  {
    db.(generations := db.generations[g := db.generations[g].(content := c)])
  }

  /** The error of a write to a generation, if it is not a staging one. */
  function StagingError(db: Db, g: GenerationId): Option<Error> {
    if g == "" then Some(MissingArgument)
    else if g !in db.generations then Some(GenerationNotFound)
    else if db.generations[g].status != Staging then Some(GenerationNotStaging)
    else None
  }

  function SupersedeStale(gs: map<GenerationId, Generation>, hash: string): map<GenerationId, Generation> {
    map g | g in gs :: if gs[g].status == Staging && gs[g].hash != hash then gs[g].(status := Superseded) else gs[g]
  }

  function PromoteError(db: Db, g: GenerationId, hash: string): Option<Error> {
    if g == "" || hash == "" then Some(MissingArgument)
    else if g !in db.generations then Some(GenerationNotFound)
    else if db.generations[g].status != Staging then Some(GenerationNotStaging)
    else if db.generations[g].hash != hash then Some(RoutingStateChanged)
    else if db.dirty != map[] then Some(DirtyPartitions)
    else
      var c := db.generations[g].content;
      if exists t :: t in c.members && (!c.members[t].complete || c.members[t].actual.None? || t !in c.sources)
      then Some(GenerationIncomplete)
      else if !MembersReady(c) then Some(SourceFingerprintMismatch)
      else if !RequirementsReady(c) then Some(DependencyMismatch)
      else None
  }

  /** The previous active generation is superseded and the promoted one becomes active. */
  function Promoted(gs: map<GenerationId, Generation>, g: GenerationId): map<GenerationId, Generation>
    requires g in gs
  {
    map x | x in gs ::
      if x == g then gs[x].(status := Active, sourceSet := Some(gs[x].content.sources))
      else if gs[x].status == Active then gs[x].(status := Superseded)
      else gs[x]
  }

  /** Batches are inserted once; inserting one again with the same id must name the same work item. */
  function PutBatchesError(db: Db, batches: map<BatchId, Batch>): Option<Error> {
    if exists b :: b in batches && StagingError(db, b.generation).Some? then Some(GenerationNotStaging)
    else if exists b :: b in batches && b in db.batches && db.batches[b].(accepted := None) != batches[b]
    then Some(BatchConflict)
    else None
  }

  function AcceptError(db: Db, b: BatchId, response: Response): Option<Error> {
    if b !in db.batches then Some(BatchNotFound)
    else
      var batch := db.batches[b];
      if batch.accepted.Some? then (if batch.accepted.value == response then None else Some(BatchConflict))
      else if b.generation !in db.generations then Some(GenerationNotFound)
      else
        var status := db.generations[b.generation].status;
        if (if b.kind.ReviewBatch? then status == Superseded else status != Staging)
        then Some(GenerationNotStaging)
        else None
  }

  function Check(e: Option<Error>, db: Db): Result<Db, Error> {
    if e.Some? then Err(e.value) else Ok(db)
  }

  /** What a transaction does to the tables, or why it is refused. */
  function Exec(db: Db, tx: Tx): Result<Db, Error> {
    match tx
    case CreateStaging(g, hash) =>
      if hash == "" || g == "" then Err(MissingArgument)
      else if g in db.generations then Err(GenerationExists)
      else Ok(db.(generations := db.generations[g := Generation(Staging, hash, None, EmptyContent)]))
    case ReconcileStaging(hash) =>
      if hash == "" then Err(MissingArgument)
      else Ok(db.(generations := SupersedeStale(db.generations, hash)))
    case SupersedeStaging(g) =>
      if StagingError(db, g).Some? then Err(StagingError(db, g).value)
      else Ok(db.(generations := db.generations[g := db.generations[g].(status := Superseded)]))
    case RequireSource(g, t, expected) =>
      if StagingError(db, g).Some? then Err(StagingError(db, g).value)
      else Ok(Rewritten(db, g, SourceRequired(db.generations[g].content, t, expected)))
    case PutSource(g, t, contract, complete) =>
      if StagingError(db, g).Some? then Err(StagingError(db, g).value)
      else if t !in db.generations[g].content.members then Err(NotDeclared)
      else Ok(Rewritten(db, g, SourcePut(db.generations[g].content, t, contract, complete)))
    case RequireDependency(g, key, expected) =>
      if StagingError(db, g).Some? then Err(StagingError(db, g).value)
      else Ok(Rewritten(db, g, Required(db.generations[g].content, key, expected)))
    case SatisfyDependency(g, key, actual) =>
      if StagingError(db, g).Some? then Err(StagingError(db, g).value)
      else if key !in db.generations[g].content.requirements then Err(NotDeclared)
      else Ok(Rewritten(db, g, Satisfied(db.generations[g].content, key, actual)))
    case AttachArtifact(g, slot, a) =>
      if StagingError(db, g).Some? then Err(StagingError(db, g).value)
      else Ok(Rewritten(db, g, AttachedTo(db.generations[g].content, slot, a)))
    case PutLexical(g, t, text) =>
      if StagingError(db, g).Some? then Err(StagingError(db, g).value)
      else Ok(Rewritten(db, g, LexicalPut(db.generations[g].content, t, text)))
    case PutArtifact(a) => Ok(db.(artifacts := db.artifacts + {a}))
    case PutBatches(batches) => Check(PutBatchesError(db, batches), db.(batches := batches + db.batches))
    case AcceptBatch(b, response) =>
      if AcceptError(db, b, response).Some? then Err(AcceptError(db, b, response).value)
      else Ok(db.(batches := db.batches[b := db.batches[b].(accepted := Some(response))]))
    case MarkDirty(p, m) =>
      if p == "" || m.reason == "" then Err(MissingArgument) else Ok(db.(dirty := db.dirty[p := m]))
    case ClearDirtyIfUnchanged(p, m) =>
      if p == "" then Err(MissingArgument)
      else Ok(if p in db.dirty && db.dirty[p] == m then db.(dirty := db.dirty - {p}) else db)
    case Promote(g, hash) =>
      if PromoteError(db, g, hash).Some? then Err(PromoteError(db, g, hash).value)
      else Ok(db.(generations := Promoted(db.generations, g)))
  }

  /** The tables after a transaction that may have been refused. */
  function After(db: Db, tx: Tx): Db {
    var r := Exec(db, tx);
    if r.Ok? then r.value else db
  }

  // ---------------------------------------------------------------------------------------------
  // When transactions succeed, and what they leave
  // ---------------------------------------------------------------------------------------------

  /** All generations but one are as they were. */
  ghost predicate OtherGenerationsSame(a: Db, b: Db, g: GenerationId) {
    forall h :: h != g ==> (h in a.generations <==> h in b.generations) && (h in a.generations ==> b.generations[h] == a.generations[h])
  }

  predicate StagingIs(db: Db, g: GenerationId) {
    g != "" && g in db.generations && db.generations[g].status == Staging
  }

  /** A generation is begun under a new id, empty and in staging. */
  lemma CreateMeans(db: Db, g: GenerationId, hash: string)
    ensures var r := Exec(db, CreateStaging(g, hash));
            && (r.Ok? <==> g != "" && hash != "" && g !in db.generations)
            && (r.Ok? ==>
                  && OtherGenerationsSame(db, r.value, g) && StagingIs(r.value, g)
                  && r.value.generations[g].hash == hash && r.value.generations[g].sourceSet.None?
                  && r.value.generations[g].content.sources == map[] && r.value.generations[g].content.members == map[]
                  && r.value.generations[g].content.requirements == map[] && r.value.generations[g].content.attached == map[]
                  && r.value.generations[g].content.lexical == map[]
                  && r.value == db.(generations := r.value.generations))
  {
  }

  /** Exactly the staging generations of other routing states are retired. */
  lemma ReconcileMeans(db: Db, hash: string)
    ensures var r := Exec(db, ReconcileStaging(hash));
            && (r.Ok? <==> hash != "")
            && (r.Ok? ==>
                  && r.value == db.(generations := r.value.generations) && r.value.generations.Keys == db.generations.Keys
                  && forall g :: g in db.generations ==>
                       r.value.generations[g] == db.generations[g].(status :=
                         if db.generations[g].status == Staging && db.generations[g].hash != hash then Superseded else db.generations[g].status))
  {
  }

  lemma SupersedeMeans(db: Db, g: GenerationId)
    ensures var r := Exec(db, SupersedeStaging(g));
            && (r.Ok? <==> StagingIs(db, g))
            && (r.Ok? ==>
                  && OtherGenerationsSame(db, r.value, g) && r.value == db.(generations := r.value.generations)
                  && g in r.value.generations && r.value.generations[g] == db.generations[g].(status := Superseded))
  {
  }

  /** A declared member is complete exactly if it was, and what is stored is what is expected now. */
  lemma DeclareMemberMeans(db: Db, g: GenerationId, t: Tool, contract: string)
    ensures var r := Exec(db, RequireSource(g, t, contract));
            && (r.Ok? <==> StagingIs(db, g))
            && (r.Ok? ==>
                  var c, d := db.generations[g].content, r.value.generations[g].content;
                  && OtherGenerationsSame(db, r.value, g) && d == c.(members := d.members) && t in d.members && d.members[t].expected == contract
                  && (d.members[t].complete <==> t in c.members && c.members[t].complete && c.members[t].actual == Some(contract))
                  && d.members[t].actual == (if t in c.members then c.members[t].actual else None)
                  && forall u :: u != t ==> (u in d.members <==> u in c.members) && (u in c.members ==> d.members[u] == c.members[u]))
  {
  }

  /** A source is stored for a declared member only, and its member row says what was stored. */
  lemma StoreSourceMeans(db: Db, g: GenerationId, t: Tool, contract: string, complete: bool)
    ensures var r := Exec(db, PutSource(g, t, contract, complete));
            && (r.Ok? <==> StagingIs(db, g) && t in db.generations[g].content.members)
            && (r.Ok? ==>
                  var c, d := db.generations[g].content, r.value.generations[g].content;
                  && OtherGenerationsSame(db, r.value, g) && d == c.(members := d.members, sources := d.sources)
                  && d.sources == c.sources[t := contract]
                  && d.members == c.members[t := Member(c.members[t].expected, Some(contract), complete)])
  {
  }

  /** A batch may still be answered: its generation is in staging, or is active and the batch is a review. */
  predicate Open(db: Db, b: BatchId) {
    && b in db.batches && db.batches[b].accepted.None? && b.generation in db.generations
    && (db.generations[b.generation].status == Staging
        || (b.kind == ReviewBatch && db.generations[b.generation].status == Active))
  }

  /** A response is accepted for an open batch of a staging generation, and of an active one if it is a review; a repeat is accepted always. */
  lemma AcceptMeans(db: Db, b: BatchId, response: Response)
    ensures var r := Exec(db, AcceptBatch(b, response));
            && (r.Ok? <==> Open(db, b) || (b in db.batches && db.batches[b].accepted == Some(response)))
            && (r.Ok? ==> r.value == db.(batches := db.batches[b := db.batches[b].(accepted := Some(response))]))
            && (b in db.batches && db.batches[b].accepted.Some? && db.batches[b].accepted.value != response ==> r == Err(BatchConflict))
  {
  }

  /** Batches are inserted all or none: into staging generations, and none that names other work under a known id. */
  lemma PutBatchesMeans(db: Db, batches: map<BatchId, Batch>)
    ensures var r := Exec(db, PutBatches(batches));
            && (r.Ok? <==> forall b :: b in batches ==>
                  StagingIs(db, b.generation) && (b in db.batches ==> db.batches[b].(accepted := None) == batches[b]))
            && (r.Ok? ==>
                  && r.value == db.(batches := r.value.batches) && r.value.batches.Keys == db.batches.Keys + batches.Keys
                  && forall b :: b in r.value.batches ==> r.value.batches[b] == if b in db.batches then db.batches[b] else batches[b])
  {
    hide OtherGenerationsSame;
    assert forall b :: b in batches ==> (StagingError(db, b.generation).None? <==> StagingIs(db, b.generation));
  }

  /** A complete generation of the routing state is promoted while nothing is dirty; the active one is retired, and no other changes. */
  lemma PromoteMeans(db: Db, g: GenerationId, hash: string)
    ensures var r := Exec(db, Promote(g, hash));
            && (r.Ok? <==>
                  && StagingIs(db, g) && hash != "" && db.generations[g].hash == hash && db.dirty == map[]
                  && MembersReady(db.generations[g].content) && RequirementsReady(db.generations[g].content))
            && (r.Ok? ==>
                  && r.value == db.(generations := r.value.generations) && r.value.generations.Keys == db.generations.Keys
                  && r.value.generations[g] == db.generations[g].(status := Active, sourceSet := Some(db.generations[g].content.sources))
                  && forall h :: h in db.generations && h != g ==>
                       r.value.generations[h] == db.generations[h].(status := if db.generations[h].status == Active then Superseded else db.generations[h].status))
            && (r == Err(DirtyPartitions) ==> db.dirty != map[])
            && (r == Err(RoutingStateChanged) ==> g in db.generations && db.generations[g].hash != hash)
  {
    hide RequirementsReady;
    if StagingIs(db, g) && MembersReady(db.generations[g].content) {
      ReadyMembersComplete(db.generations[g].content);
    }
  }

  lemma ReadyMembersComplete(c: Content)
    requires MembersReady(c)
    ensures !exists t :: t in c.members && (!c.members[t].complete || c.members[t].actual.None? || t !in c.sources)
  {
  }

  // ---------------------------------------------------------------------------------------------
  // What every sequence of transactions keeps
  // ---------------------------------------------------------------------------------------------

  ghost predicate OneActive(gs: map<GenerationId, Generation>) {
    forall g, h :: g in gs && h in gs && gs[g].status == Active && gs[h].status == Active ==> g == h
  }

  /** A generation that was promoted passed promotion's tests with the content it has. */
  ghost predicate PromotedReady(gs: map<GenerationId, Generation>) {
    forall g :: g in gs ==>
      && (gs[g].status == Active ==> gs[g].sourceSet.Some?)
      && (gs[g].status == Staging ==> gs[g].sourceSet.None?)
      && (gs[g].sourceSet.Some? ==>
            && MembersReady(gs[g].content) && RequirementsReady(gs[g].content)
            && gs[g].sourceSet.value == gs[g].content.sources)
  }

  /** How a generation may change: it leaves staging and activity for good, and its content freezes. */
  predicate Grows(before: Generation, after: Generation) {
    && after.hash == before.hash
    && (before.status != Staging ==> after.content == before.content && after.sourceSet == before.sourceSet)
    && (before.status == Active ==> after.status != Staging)
    && (before.status == Superseded ==> after == before)
  }

  ghost predicate Extends(before: Db, after: Db) {
    && (forall g :: g in before.generations ==> g in after.generations && Grows(before.generations[g], after.generations[g]))
    && before.artifacts <= after.artifacts
    && (forall b :: b in before.batches ==>
          && b in after.batches
          && after.batches[b].(accepted := None) == before.batches[b].(accepted := None)
          && (before.batches[b].accepted.Some? ==> after.batches[b].accepted == before.batches[b].accepted))
  }

  lemma PromotionKeepsActive(db: Db, g: GenerationId, hash: string)
    requires OneActive(db.generations) && PromotedReady(db.generations) && PromoteError(db, g, hash).None?
    ensures OneActive(Promoted(db.generations, g)) && PromotedReady(Promoted(db.generations, g))
  {
    hide MembersReady, RequirementsReady;
  }

  /** Only promotion makes a generation active; everything else leaves promoted ones as they are. */
  lemma OtherTxKeepsActive(db: Db, tx: Tx)
    requires OneActive(db.generations) && PromotedReady(db.generations) && !tx.Promote?
    ensures OneActive(After(db, tx).generations) && PromotedReady(After(db, tx).generations)
  {
    hide MembersReady, RequirementsReady, PutBatchesError, AcceptError;
  }

  lemma TxKeepsActive(db: Db, tx: Tx)
    requires OneActive(db.generations) && PromotedReady(db.generations)
    ensures OneActive(After(db, tx).generations) && PromotedReady(After(db, tx).generations)
  {
    hide OneActive, PromotedReady;
    if tx.Promote? {
      if PromoteError(db, tx.id, tx.hash).None? {
        PromotionKeepsActive(db, tx.id, tx.hash);
      }
    } else {
      OtherTxKeepsActive(db, tx);
    }
  }

  lemma TxExtends(db: Db, tx: Tx)
    ensures Extends(db, After(db, tx))
  {
    hide MembersReady, RequirementsReady;
  }

  function RunTx(db: Db, txs: seq<Tx>): Db
    decreases |txs|
  {
    if txs == [] then db else RunTx(After(db, txs[0]), txs[1..])
  }

  lemma ExtendsTransitive(a: Db, b: Db, c: Db)
    requires Extends(a, b) && Extends(b, c)
    ensures Extends(a, c)
  {
  }

  /**
   In every run from the empty catalog at most one generation is active, and every generation that
   was ever promoted still has the content with which it passed promotion.
   */
  lemma {:induction false} RunsKeepActive(db: Db, txs: seq<Tx>)
    requires OneActive(db.generations) && PromotedReady(db.generations)
    ensures OneActive(RunTx(db, txs).generations) && PromotedReady(RunTx(db, txs).generations)
    decreases |txs|
  {
    if txs != [] {
      TxKeepsActive(db, txs[0]);
      RunsKeepActive(After(db, txs[0]), txs[1..]);
    }
  }

  /** In every run content is frozen once a generation has left staging, and an accepted response is write-once. */
  lemma {:induction false} RunsExtend(db: Db, txs: seq<Tx>)
    ensures Extends(db, RunTx(db, txs))
    decreases |txs|
  {
    if txs != [] {
      TxExtends(db, txs[0]);
      RunsExtend(After(db, txs[0]), txs[1..]);
      ExtendsTransitive(db, After(db, txs[0]), RunTx(db, txs));
    }
  }

  /** The transactions lead from one state to the other, and every one of them succeeds. */
  predicate Ran(before: Db, txs: seq<Tx>, after: Db)
    decreases |txs|
  {
    if txs == [] then after == before
    else Exec(before, txs[0]).Ok? && Ran(Exec(before, txs[0]).value, txs[1..], after)
  }

  lemma {:induction false} RanAppend(a: Db, txs: seq<Tx>, b: Db, more: seq<Tx>, c: Db)
    requires Ran(a, txs, b) && Ran(b, more, c)
    ensures Ran(a, txs + more, c)
    decreases |txs|
  {
    hide Exec;
    if txs == [] {
      assert txs + more == more;
    } else {
      RanAppend(Exec(a, txs[0]).value, txs[1..], b, more, c);
      assert (txs + more)[1..] == txs[1..] + more;
    }
  }

  lemma RanOne(a: Db, tx: Tx, b: Db)
    requires Exec(a, tx) == Ok(b)
    ensures Ran(a, [tx], b)
  {
    hide Exec;
    assert [tx][1..] == [];
  }

  lemma NothingRan(db: Db, txs: seq<Tx>)
    ensures Ran(db, txs[..0], db)
  {
  }

  lemma RanNext(a: Db, txs: seq<Tx>, n: nat, b: Db, c: Db)
    requires n < |txs| && Ran(a, txs[..n], b) && Exec(b, txs[n]) == Ok(c)
    ensures Ran(a, txs[..n + 1], c)
  {
    hide Exec;
    RanOne(b, txs[n], c);
    RanAppend(a, txs[..n], b, [txs[n]], c);
    assert txs[..n + 1] == txs[..n] + [txs[n]];
  }

  lemma RanMore(a: Db, txs: seq<Tx>, n: nat, m: nat, b: Db, c: Db)
    requires n + m <= |txs| && Ran(a, txs[..n], b) && Ran(b, txs[n..n + m], c)
    ensures Ran(a, txs[..n + m], c)
  {
    hide Exec;
    RanAppend(a, txs[..n], b, txs[n..n + m], c);
    assert txs[..n + m] == txs[..n] + txs[n..n + m];
  }
}
