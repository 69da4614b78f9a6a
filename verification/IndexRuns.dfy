/**
 Every run of the index: any sequence of operations, each cut off after any number of its writes.
 */
module IndexRuns {
  import opened Common
  import opened ServerConfig
  import opened CatalogModel
  import opened CatalogTables
  import opened IndexInvariant
  import opened IndexBuild
  import opened IndexEnrichment
  import opened IndexRefresh
  import opened IndexService
  import opened ToolPreparation
  import opened CapabilityPreparation
  import opened Submission
  import opened Replay
  import opened Fulfilment

  /** One call of the index service, and how many of its writes the connection carries. */
  datatype Operation =
    | RefreshIndex(cut: nat, hash: string, servers: seq<ServerEntry>, snapshots: map<string, Snapshot>, newId: GenerationId)
    | GetToolBatch(cut: nat, id: GenerationId)
    | GetCapabilityBatch(cut: nat, id: GenerationId, valid: bool)
    | SubmitTools(cut: nat, batch: BatchId, response: Response)
    | SubmitCapabilities(cut: nat, batch: BatchId, response: Response, valid: bool)
    | CommitIndex(cut: nat, id: GenerationId, hash: string, valid: bool)
    | MarkServer(cut: nat, partition: string, marker: Marker)

  lemma EmptyIndexIsSound()
    ensures IndexSound(EmptyDb)
  {
  }

  lemma EmptyIndexAgrees(provider: string)
    ensures RowsAgree(EmptyDb, provider)
  {
  }

  /** What the invariant says to the users of the index. */
  ghost predicate Usable(db: Db) {
    && OneActive(db.generations)
    && (forall g, slot :: g in db.generations && Complete(db.generations[g].content, ArtifactKey(slot)) ==>
          var c := db.generations[g].content;
          slot in c.attached && c.requirements[ArtifactKey(slot)].expected == OfSpec(c.attached[slot].spec))
    && (forall g :: g in db.generations && db.generations[g].sourceSet.Some? && ReconciledTools(db, g) != {} ==>
          (CountsMatch(db.generations[g].content) <==> SchemasDeclared(db.generations[g].content)))
  }

  lemma SoundIsUsable(db: Db)
    requires IndexSound(db)
    ensures Usable(db)
  {
    hide CountsMatch, SchemasDeclared, BatchTools, ReconciledTools, LexicalFirst, GatesOrdered, WorkOrdered;
    forall g | g in db.generations && db.generations[g].sourceSet.Some? && ReconciledTools(db, g) != {}
      ensures CountsMatch(db.generations[g].content) <==> SchemasDeclared(db.generations[g].content)
    {
      SearchCountsIff(db, g);
    }
    forall g, slot | g in db.generations && Complete(db.generations[g].content, ArtifactKey(slot))
      ensures slot in db.generations[g].content.attached
      ensures db.generations[g].content.requirements[ArtifactKey(slot)].expected == OfSpec(db.generations[g].content.attached[slot].spec)
    {
      assert SoundFor(db, g, db.generations[g].content);
    }
  }

  method Perform(cat: Catalog, op: Operation, limits: Limits, maxTools: nat, o: Tools) returns (e: Option<Error>)
    requires IndexSound(cat.Tables()) && Faithful(o) && limits.batchSize > 0
    modifies cat
    ensures IndexSound(cat.Tables())
    ensures RowsAgree(old(cat.Tables()), o.provider) ==> RowsAgree(cat.Tables(), o.provider)
  {
    hide IndexSound, SameSources, Ran, Refreshed, RowsAgree, AllBased, AllProvided, HandedOut, Interrupted, Declaring, Completed, RepairedFrom;
    hide Asking, Recapping, CapabilityHandedOut, CapabilityRepaired, CapabilityCut, Cut, Answers, AcceptableFor, VectorsExist;
    ghost var before := cat.Tables();
    cat.cut := op.cut;
    ghost var n;
    match op {
      case RefreshIndex(_, hash, servers, snapshots, newId) =>
        var g;
        e, g := Refresh(cat, hash, servers, snapshots, newId, limits, o);
      case GetToolBatch(_, g) => e := GetTools(cat, g, limits, o);
      case GetCapabilityBatch(_, g, valid) =>
        e := PrepareCapabilityReconciliation(cat, g, maxTools, o.choose, valid);
        if RowsAgree(before, o.provider) {
          ReconcilingKeepsRows(before, cat.Tables(), g, o.provider);
        }
      case SubmitTools(_, b, response) =>
        e, n := SubmitToolBatch(cat, b, response, o);
        if RowsAgree(before, o.provider) && Answers(before, b, response) {
          SubmittingKeepsRows(before, b, response, n, cat.Tables(), o);
        }
      case SubmitCapabilities(_, b, response, valid) =>
        e, n := SubmitCapabilityBatch(cat, b, response, valid);
        if RowsAgree(before, o.provider) && Reconciles(before, b, response, valid) {
          CapabilityCutKeepsRows(before, b, response, n, cat.Tables(), o.provider);
        }
      case CommitIndex(_, g, hash, valid) => e := Commit(cat, g, hash, maxTools, o.choose, valid);
      case MarkServer(_, p, m) =>
        e := cat.Mark(p, m);
        if e.None? {
          DirtyKeeps(before, cat.dirty);
        }
        SameContentsKeepRows(before, cat.Tables());
    }
  }

  method GetTools(cat: Catalog, g: GenerationId, limits: Limits, o: Tools) returns (e: Option<Error>)
    requires IndexSound(cat.Tables()) && Faithful(o) && limits.batchSize > 0
    modifies cat
    ensures IndexSound(cat.Tables())
    ensures RowsAgree(old(cat.Tables()), o.provider) ==> RowsAgree(cat.Tables(), o.provider)
  {
    hide IndexSound, RowsAgree, HandedOut, Interrupted, Declaring, Completed, RepairedFrom, SameSources;
    ghost var before := cat.Tables();
    e := PrepareToolEnrichment(cat, g, limits, o);
    if RowsAgree(before, o.provider) && g in before.generations {
      SourcesKept(before, cat.Tables(), g);
      assert Prepares(before, cat.Tables(), g, e.None?, limits, o);
      PreparesKeepsRows(before, cat.Tables(), g, e.None?, limits, o);
    }
  }

  /**
   After any sequence of operations on a new catalog, wherever each of them was cut off, at most one
   generation is active, every satisfied artifact requirement has its artifact, and a promoted and
   reconciled generation passes the completeness test of a search exactly if its schema vectors were
   all declared. The requirement rows are such that answering what is handed out fulfils them.
   */
  method Drive(ops: seq<Operation>, limits: Limits, maxTools: nat, o: Tools) returns (cat: Catalog)
    requires Faithful(o) && limits.batchSize > 0
    ensures fresh(cat) && IndexSound(cat.Tables()) && Usable(cat.Tables()) && RowsAgree(cat.Tables(), o.provider)
  {
    hide IndexSound, Usable, RowsAgree;
    cat := new Catalog();
    EmptyIndexIsSound();
    EmptyIndexAgrees(o.provider);
    for i := 0 to |ops|
      invariant fresh(cat) && IndexSound(cat.Tables()) && RowsAgree(cat.Tables(), o.provider)
    {
      var e := Perform(cat, ops[i], limits, maxTools, o);
    }
    SoundIsUsable(cat.Tables());
  }

  /** Enrichment after a successful refresh, and then promotion, gives a generation that every search can use. */
  lemma CompleteRefreshIsSearchable(refreshed: Db, g: GenerationId, hash: string, enriched: Db, promoted: Db)
    requires g in refreshed.generations && SchemasDeclared(refreshed.generations[g].content)
    requires SameSources(refreshed, enriched) && IndexSound(enriched) && ReconciledTools(enriched, g) != {}
    requires Exec(enriched, Promote(g, hash)) == Ok(promoted)
    ensures g in promoted.generations && promoted.generations[g].status == Active && CountsMatch(promoted.generations[g].content)
  {
    hide IndexSound, CountsMatch;
    PromoteKeeps(enriched, g, hash);
    SameWork(enriched, promoted, g);
    SearchCountsIff(promoted, g);
    var c, d := refreshed.generations[g].content, promoted.generations[g].content;
    forall t | t in d.sources ensures ArtifactKey(ToolSlot(InputSchema, t)) in d.requirements {
      assert t in c.sources && ArtifactKey(ToolSlot(InputSchema, t)) in c.requirements;
    }
  }
}
