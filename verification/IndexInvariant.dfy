/**
 What the index build keeps true of every generation, whatever step it is cut off at, and what it
 means for the tests that a search makes.
 */
module IndexInvariant {
  import opened Common
  import opened CatalogModel

  /** Tools that pending or accepted tool batches of a generation are about. */
  ghost function BatchTools(db: Db, g: GenerationId): set<Tool> {
    set b, i | b in db.batches && b.generation == g && db.batches[b].request.ToolRequest?
               && 0 <= i < |db.batches[b].request.items| :: db.batches[b].request.items[i].0
  }

  /** Tools that the capability batch of a generation was prepared over. */
  ghost function ReconciledTools(db: Db, g: GenerationId): set<Tool> {
    set b, t | b in db.batches && b.generation == g && db.batches[b].request.CapabilityRequest?
               && t in db.batches[b].request.tools :: t
  }

  predicate Complete(c: Content, key: Key) {
    key in c.requirements && c.requirements[key].complete
  }

  /** A satisfied artifact requirement has a matching artifact attached. */
  ghost predicate ArtifactsMatch(c: Content) {
    && (forall slot :: slot in c.attached ==>
          ArtifactKey(slot) in c.requirements && (slot.ToolSlot? ==> slot.tool in c.sources))
    && (forall slot :: Complete(c, ArtifactKey(slot)) ==>
          && slot in c.attached
          && c.requirements[ArtifactKey(slot)].expected == OfSpec(c.attached[slot].spec)
          && c.requirements[ArtifactKey(slot)].actual == Some(OfSpec(c.attached[slot].spec)))
  }

  /** Lexical records exist for sources only, and come before the first vector of the same tool. */
  ghost predicate LexicalFirst(c: Content) {
    && c.lexical.Keys <= c.sources.Keys
    && (forall t :: ToolSlot(Description, t) in c.attached ==> t in c.lexical)
  }

  /** The gate of a tool is declared before its guidance, and satisfied after its enriched vector. */
  ghost predicate GatesOrdered(c: Content) {
    && (forall t :: Complete(c, EnrichedGate(t)) ==> ToolSlot(Enriched, t) in c.attached)
    && (forall t :: ToolSlot(Guidance, t) in c.attached ==> EnrichedGate(t) in c.requirements)
  }

  ghost predicate AllHave(c: Content, role: Role) {
    forall t :: t in c.sources ==> ToolSlot(role, t) in c.attached
  }

  ghost predicate Guided(c: Content) {
    exists t :: ToolSlot(Guidance, t) in c.attached
  }

  /** Enrichment begins only when every source has its description vector, and reconciliation when every source has guidance. */
  ghost predicate WorkOrdered(c: Content, batched: set<Tool>, reconciled: set<Tool>) {
    && batched <= c.sources.Keys
    && (forall t :: t in batched ==> EnrichedGate(t) in c.requirements)
    && (batched != {} || Guided(c) ==> AllHave(c, Description))
    && (reconciled != {} ==> reconciled == c.sources.Keys && AllHave(c, Guidance))
  }

  ghost predicate GenerationSound(c: Content, batched: set<Tool>, reconciled: set<Tool>) {
    ArtifactsMatch(c) && LexicalFirst(c) && GatesOrdered(c) && WorkOrdered(c, batched, reconciled)
  }

  /** A request is of the kind of its batch, and a tool batch asks for each tool once. */
  ghost predicate WellFormed(kind: BatchKind, r: Request) {
    && (kind.ToolBatch? <==> r.ToolRequest?)
    && (kind.CapabilityBatch? <==> r.CapabilityRequest?)
    && (r.ToolRequest? ==> forall i, j :: 0 <= i < j < |r.items| ==> r.items[i].0 != r.items[j].0)
  }

  function WorkTools(items: seq<(Tool, string)>): set<Tool> {
    set i | 0 <= i < |items| :: items[i].0
  }

  function RequestTools(r: Request): set<Tool> {
    if r.ToolRequest? then WorkTools(r.items) else {}
  }

  /** No tool is in two batches of a generation. */
  ghost predicate DisjointWork(batches: map<BatchId, Batch>) {
    forall b, c :: b in batches && c in batches && b != c && b.generation == c.generation ==>
      RequestTools(batches[b].request) !! RequestTools(batches[c].request)
  }

  ghost predicate OneStagingPerHash(gs: map<GenerationId, Generation>) {
    forall g, h :: g in gs && h in gs && gs[g].status == Staging && gs[h].status == Staging && gs[g].hash == gs[h].hash ==> g == h
  }

  ghost predicate IndexSound(db: Db) {
    && OneActive(db.generations) && PromotedReady(db.generations) && OneStagingPerHash(db.generations)
    && "" !in db.generations && DisjointWork(db.batches)
    && (forall b :: b in db.batches ==> b.generation in db.generations && WellFormed(b.kind, db.batches[b].request))
    && (forall g :: g in db.generations ==> GenerationSound(db.generations[g].content, BatchTools(db, g), ReconciledTools(db, g)))
  }

  // ---------------------------------------------------------------------------------------------
  // The requirement rows
  // ---------------------------------------------------------------------------------------------

  /** A requirement of one tool. */
  predicate KeyOf(key: Key, t: Tool) {
    if key.EnrichedGate? then key.tool == t else key.ArtifactKey? && key.slot.ToolSlot? && key.slot.tool == t
  }

  /** The requirements that enrichment declares for a tool: its guidance, its enriched vector and its gate. */
  function EnrichmentKeys(t: Tool): set<Key> {
    {ArtifactKey(ToolSlot(Guidance, t)), ArtifactKey(ToolSlot(Enriched, t)), EnrichedGate(t)}
  }

  ghost predicate FullyEnriched(c: Content, t: Tool) {
    forall key :: key in EnrichmentKeys(t) ==> Complete(c, key)
  }

  /** What the tool batches of a generation ask for: tools, with the contract each had when its batch was made. */
  ghost function WorkOf(batches: map<BatchId, Batch>, g: GenerationId): set<(Tool, string)> {
    set b, i | b in batches && b.generation == g && batches[b].request.ToolRequest?
               && 0 <= i < |batches[b].request.items| :: batches[b].request.items[i]
  }

  ghost predicate Asked(work: set<(Tool, string)>, t: Tool) {
    exists w :: w in work && w.0 == t
  }

  /** Guidance and gate of a work item are declared with the contract that the item names. */
  predicate DeclaredFor(c: Content, w: (Tool, string), provider: string) {
    && ArtifactKey(ToolSlot(Guidance, w.0)) in c.requirements && EnrichedGate(w.0) in c.requirements
    && c.requirements[ArtifactKey(ToolSlot(Guidance, w.0))].expected == OfSpec(GuidanceSpec(w.1))
    && c.requirements[EnrichedGate(w.0)].expected == OfGate(provider, w.1)
  }

  /** A satisfied gate was satisfied as expected. */
  ghost predicate GatesMatch(c: Content) {
    forall t :: Complete(c, EnrichedGate(t)) ==>
      c.requirements[EnrichedGate(t)].actual == Some(c.requirements[EnrichedGate(t)].expected)
  }

  ghost predicate KeysOfSources(c: Content) {
    forall key, t :: key in c.requirements && KeyOf(key, t) ==> t in c.sources
  }

  /**
   What is required of sources only, gates that are satisfied as expected, work items whose requirements are
   declared as the submission will fulfil them, and no source that is neither asked for nor enriched.
   */
  ghost predicate RowsRight(c: Content, work: set<(Tool, string)>, provider: string) {
    && KeysOfSources(c) && GatesMatch(c)
    && (forall w :: w in work ==> DeclaredFor(c, w, provider))
    && (work != {} ==> forall t :: t in c.sources ==> Asked(work, t) || FullyEnriched(c, t))
  }

  /** Tool batches ask for something, and nothing waits for reviews. */
  ghost predicate BatchesProper(batches: map<BatchId, Batch>) {
    && (forall b :: b in batches && batches[b].request.ToolRequest? ==> batches[b].request.items != [])
    && (forall b :: b in batches && b.kind.ReviewBatch? ==> !batches[b].required)
  }

  ghost predicate RowsAgree(db: Db, provider: string) {
    && BatchesProper(db.batches)
    && (forall g :: g in db.generations ==> RowsRight(db.generations[g].content, WorkOf(db.batches, g), provider))
  }

  /** Rows that were right still are. */
  ghost predicate KeepsRows(a: Db, b: Db) {
    forall provider :: RowsAgree(a, provider) ==> RowsAgree(b, provider)
  }

  lemma KeepsRowsTransitive(a: Db, b: Db, c: Db)
    requires KeepsRows(a, b) && KeepsRows(b, c)
    ensures KeepsRows(a, c)
  {
    hide RowsAgree;
  }

  /** Only statuses, markers and artifacts have changed, and generations without content were begun. */
  lemma SameContentsKeepRows(a: Db, b: Db)
    requires b.batches == a.batches && a.generations.Keys <= b.generations.Keys
    requires forall g :: g in a.generations ==> b.generations[g].content == a.generations[g].content
    requires forall g :: g in b.generations && g !in a.generations ==>
               b.generations[g].content == EmptyContent && forall x :: x in a.batches ==> x.generation != g
    ensures KeepsRows(a, b)
  {
    hide RowsRight;
    forall g | g in b.generations && g !in a.generations ensures forall provider :: RowsRight(EmptyContent, WorkOf(b.batches, g), provider) {
      assert WorkOf(b.batches, g) == {};
      NothingIsRight();
    }
  }

  lemma NothingIsRight()
    ensures forall provider :: RowsRight(EmptyContent, {}, provider)
  {
  }

  // ---------------------------------------------------------------------------------------------
  // Each write, in the place where the index build makes it
  // ---------------------------------------------------------------------------------------------

  lemma SourceRequiredKeeps(c: Content, t: Tool, expected: string, batched: set<Tool>, reconciled: set<Tool>)
    requires GenerationSound(c, batched, reconciled)
    ensures GenerationSound(SourceRequired(c, t, expected), batched, reconciled)
  {
  }

  /** A new source may come only before enrichment has begun. */
  lemma SourcePutKeeps(c: Content, t: Tool, contract: string, batched: set<Tool>, reconciled: set<Tool>)
    requires GenerationSound(c, batched, reconciled) && t in c.members
    requires t in c.sources || (!Guided(c) && batched == {})
    ensures GenerationSound(SourcePut(c, t, contract, true), batched, reconciled)
  {
    var d := SourcePut(c, t, contract, true);
    assert reconciled == {} || Guided(c) by {
      if reconciled != {} {
        assert forall x :: x in reconciled ==> ToolSlot(Guidance, x) in c.attached;
      }
    }
    if t in c.sources {
      assert d.sources.Keys == c.sources.Keys;
    }
  }

  lemma RequiredKeeps(c: Content, key: Key, expected: Fingerprint, batched: set<Tool>, reconciled: set<Tool>)
    requires GenerationSound(c, batched, reconciled)
    ensures GenerationSound(Required(c, key, expected), batched, reconciled)
  {
  }

  lemma LexicalPutKeeps(c: Content, t: Tool, text: string, batched: set<Tool>, reconciled: set<Tool>)
    requires GenerationSound(c, batched, reconciled) && t in c.sources
    ensures GenerationSound(LexicalPut(c, t, text), batched, reconciled)
  {
  }

  /** What must hold when an artifact is attached. */
  ghost predicate MayAttach(c: Content, slot: Slot) {
    slot.ToolSlot? ==>
      && slot.tool in c.sources
      && (slot.role == Description ==> slot.tool in c.lexical)
      && (slot.role == Guidance ==> EnrichedGate(slot.tool) in c.requirements && AllHave(c, Description))
  }

  lemma AttachedKeeps(c: Content, slot: Slot, a: Artifact, batched: set<Tool>, reconciled: set<Tool>)
    requires GenerationSound(c, batched, reconciled) && MayAttach(c, slot)
    requires ArtifactKey(slot) in c.requirements && c.requirements[ArtifactKey(slot)].expected == OfSpec(a.spec)
    ensures GenerationSound(AttachedTo(c, slot, a), batched, reconciled)
  {
  }

  lemma SatisfiedKeeps(c: Content, slot: Slot, batched: set<Tool>, reconciled: set<Tool>)
    requires GenerationSound(c, batched, reconciled) && slot in c.attached
    requires c.requirements[ArtifactKey(slot)].expected == OfSpec(c.attached[slot].spec)
    ensures GenerationSound(Satisfied(c, ArtifactKey(slot), OfSpec(c.attached[slot].spec)), batched, reconciled)
  {
  }

  lemma GateSatisfiedKeeps(c: Content, key: Key, actual: Fingerprint, batched: set<Tool>, reconciled: set<Tool>)
    requires GenerationSound(c, batched, reconciled) && key in c.requirements && !key.ArtifactKey?
    requires key.EnrichedGate? ==> ToolSlot(Enriched, key.tool) in c.attached
    ensures GenerationSound(Satisfied(c, key, actual), batched, reconciled)
  {
  }

  // ---------------------------------------------------------------------------------------------
  // Search
  // ---------------------------------------------------------------------------------------------

  /** Tools with an artifact in a role, as a vector index of the role is loaded. */
  function Indexed(c: Content, role: Role): set<Tool> {
    set slot | slot in c.attached && slot.ToolSlot? && slot.role == role :: slot.tool
  }

  /** The completeness test of a search: all four indexes have as many entries as there are sources. */
  predicate CountsMatch(c: Content) {
    && |c.lexical.Keys| == |c.sources.Keys|
    && |Indexed(c, Description)| == |c.sources.Keys|
    && |Indexed(c, InputSchema)| == |c.sources.Keys|
    && |Indexed(c, Enriched)| == |c.sources.Keys|
  }

  lemma SameSize<T>(a: set<T>, b: set<T>)
    requires a <= b
    ensures |a| == |b| <==> a == b
  {
    if a != b {
      assert |b - a| > 0;
      assert a + (b - a) == b;
    }
  }

  lemma IndexedAll(c: Content, role: Role)
    requires ArtifactsMatch(c)
    ensures Indexed(c, role) <= c.sources.Keys
    ensures |Indexed(c, role)| == |c.sources.Keys| <==> AllHave(c, role)
  {
    assert forall t :: t in Indexed(c, role) <==> ToolSlot(role, t) in c.attached by {
      forall t | ToolSlot(role, t) in c.attached ensures t in Indexed(c, role) {
        assert ToolSlot(role, t).tool == t;
      }
    }
    SameSize(Indexed(c, role), c.sources.Keys);
  }

  /** Promotion leaves exactly one thing open: whether the schema vector of every source was ever asked for. */
  ghost predicate SchemasDeclared(c: Content) {
    forall t :: t in c.sources ==> ArtifactKey(ToolSlot(InputSchema, t)) in c.requirements
  }

  /** With guidance for every source and all gates satisfied, every source has its enriched vector. */
  lemma ReadyIsEnriched(c: Content)
    requires GatesOrdered(c) && AllHave(c, Guidance) && RequirementsReady(c)
    ensures AllHave(c, Enriched)
  {
    forall t | t in c.sources ensures ToolSlot(Enriched, t) in c.attached {
      assert ToolSlot(Guidance, t) in c.attached;
      assert Complete(c, EnrichedGate(t));
    }
  }

  lemma DescribedIsLexical(c: Content)
    requires LexicalFirst(c) && AllHave(c, Description)
    ensures c.lexical.Keys == c.sources.Keys
  {
    forall t | t in c.sources ensures t in c.lexical {
      assert ToolSlot(Description, t) in c.attached;
    }
  }

  /** A ready generation has the schema vectors that were declared, and no others. */
  lemma SchemasIff(c: Content)
    requires ArtifactsMatch(c) && RequirementsReady(c)
    ensures AllHave(c, InputSchema) <==> SchemasDeclared(c)
  {
    if SchemasDeclared(c) {
      forall t | t in c.sources ensures ToolSlot(InputSchema, t) in c.attached {
        assert Complete(c, ArtifactKey(ToolSlot(InputSchema, t)));
      }
    }
  }

  lemma ReconciledIsGuided(c: Content, batched: set<Tool>, reconciled: set<Tool>)
    requires WorkOrdered(c, batched, reconciled) && reconciled != {}
    ensures AllHave(c, Guidance) && AllHave(c, Description)
  {
    var x :| x in reconciled;
    assert ToolSlot(Guidance, x) in c.attached && Guided(c);
  }

  lemma ReadyContentCounts(c: Content, batched: set<Tool>, reconciled: set<Tool>)
    requires GenerationSound(c, batched, reconciled) && RequirementsReady(c) && reconciled != {}
    ensures CountsMatch(c) <==> SchemasDeclared(c)
  {
    hide ArtifactsMatch, LexicalFirst, GatesOrdered, WorkOrdered, AllHave, RequirementsReady, Indexed, SchemasDeclared;
    ReconciledIsGuided(c, batched, reconciled);
    ReadyIsEnriched(c);
    DescribedIsLexical(c);
    SchemasIff(c);
    IndexedAll(c, Description);
    IndexedAll(c, InputSchema);
    IndexedAll(c, Enriched);
  }

  /**
   A promoted generation whose capability batch was prepared over some sources passes the completeness
   test of a search exactly if the schema vector of every source was declared.
   */
  lemma SearchCountsIff(db: Db, g: GenerationId)
    requires IndexSound(db) && g in db.generations && db.generations[g].sourceSet.Some?
    requires ReconciledTools(db, g) != {}
    ensures CountsMatch(db.generations[g].content) <==> SchemasDeclared(db.generations[g].content)
  {
    ReadyContentCounts(db.generations[g].content, BatchTools(db, g), ReconciledTools(db, g));
  }

  // ---------------------------------------------------------------------------------------------
  // Writes to the content of one generation
  // ---------------------------------------------------------------------------------------------

  /** The index build is at work on a staging generation. */
  ghost predicate Building(db: Db, g: GenerationId) {
    IndexSound(db) && g != "" && g in db.generations && db.generations[g].status == Staging
  }

  /** Only the content of one generation has changed, and artifacts may have been added. */
  ghost predicate OnlyContent(a: Db, b: Db, g: GenerationId) {
    && g in a.generations && g in b.generations && a.artifacts <= b.artifacts
    && b == a.(generations := a.generations[g := a.generations[g].(content := b.generations[g].content)], artifacts := b.artifacts)
  }

  ghost predicate SoundFor(db: Db, g: GenerationId, c: Content) {
    GenerationSound(c, BatchTools(db, g), ReconciledTools(db, g))
  }

  lemma SameWork(a: Db, b: Db, g: GenerationId)
    requires a.batches == b.batches
    ensures BatchTools(a, g) == BatchTools(b, g) && ReconciledTools(a, g) == ReconciledTools(b, g)
  {
  }

  /** A generation that is sound after a write leaves the whole index sound. */
  lemma ContentKeeps(a: Db, b: Db, g: GenerationId)
    requires Building(a, g) && OnlyContent(a, b, g) && SoundFor(a, g, b.generations[g].content)
    ensures Building(b, g)
  {
    hide GenerationSound;
    forall h | h in b.generations
      ensures GenerationSound(b.generations[h].content, BatchTools(b, h), ReconciledTools(b, h))
    {
      SameWork(a, b, h);
      assert h != g ==> b.generations[h] == a.generations[h];
    }
  }

  lemma OnlyContentTransitive(a: Db, b: Db, c: Db, g: GenerationId)
    requires OnlyContent(a, b, g) && OnlyContent(b, c, g)
    ensures OnlyContent(a, c, g)
  {
  }

  /** The generations, their status and their sources are as before, and so are the dirty markers; no requirement was dropped. */
  ghost predicate SameSources(a: Db, b: Db) {
    && a.generations.Keys == b.generations.Keys && a.dirty == b.dirty
    && forall g :: g in a.generations ==>
         && b.generations[g] == a.generations[g].(content := b.generations[g].content)
         && b.generations[g].content.sources == a.generations[g].content.sources
         && a.generations[g].content.requirements.Keys <= b.generations[g].content.requirements.Keys
  }

  lemma OnlyContentSame(a: Db, b: Db, g: GenerationId)
    requires OnlyContent(a, b, g) && b.generations[g].content.sources == a.generations[g].content.sources
    requires a.generations[g].content.requirements.Keys <= b.generations[g].content.requirements.Keys
    ensures SameSources(a, b)
  {
  }

  lemma SameSourcesReflexive(a: Db)
    ensures SameSources(a, a)
  {
  }

  lemma SameSourcesTransitive(a: Db, b: Db, c: Db)
    requires SameSources(a, b) && SameSources(b, c)
    ensures SameSources(a, c)
  {
  }
}
