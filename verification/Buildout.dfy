/**
 A whole build: refresh, submission of every tool batch, reconciliation. Afterwards every requirement is
 fulfilled as expected, so the generation can be promoted.
 */
module Buildout {
  import opened Common
  import opened ServerConfig
  import opened CatalogModel
  import opened CatalogTables
  import opened IndexInvariant
  import opened IndexBuild
  import opened IndexEnrichment
  import opened IndexRefresh
  import opened Submission
  import opened Confluence
  import opened Replay
  import opened ToolPreparation
  import opened CapabilityPreparation
  import opened Fulfilment
  import opened IndexService

  /** What a refresh has left and every later step of the build keeps. */
  ghost predicate Underway(db: Db, g: GenerationId, hash: string, o: Tools) {
    && Building(db, g) && RowsAgree(db, o.provider) && db.generations[g].hash == hash && hash != ""
    && AllBased(db.generations[g].content, db.generations[g].content.sources.Keys, o)
  }

  /** A tool batch of the generation asks for the tool. */
  ghost predicate AskedIn(batches: map<BatchId, Batch>, todo: set<BatchId>, t: Tool) {
    exists b :: b in todo && b in batches && t in RequestTools(batches[b].request)
  }

  /** Every source is enriched, or one of these batches asks for it. */
  ghost predicate EnrichedBut(db: Db, g: GenerationId, todo: set<BatchId>) {
    g in db.generations && forall t :: t in db.generations[g].content.sources ==>
      FullyEnriched(db.generations[g].content, t) || AskedIn(db.batches, todo, t)
  }

  lemma ProvidedIsEnrichedBut(db: Db, g: GenerationId, todo: set<BatchId>)
    requires AllProvided(db, g) && forall b :: b in db.batches && b.generation == g && db.batches[b].request.ToolRequest? ==> b in todo
    ensures EnrichedBut(db, g, todo)
  {
    hide FullyEnriched;
    forall t | t in db.generations[g].content.sources && !FullyEnriched(db.generations[g].content, t) ensures AskedIn(db.batches, todo, t) {
      var w :| w in WorkOf(db.batches, g) && w.0 == t;
      var b, i :| b in db.batches && b.generation == g && db.batches[b].request.ToolRequest?
                  && 0 <= i < |db.batches[b].request.items| && db.batches[b].request.items[i] == w;
      assert t in WorkTools(db.batches[b].request.items);
    }
  }

  /** One more batch is answered in full: its tools are enriched, and nobody else loses anything. */
  lemma OneBatchLess(a: Db, b: BatchId, response: Response, c: Db, g: GenerationId, todo: set<BatchId>, o: Tools)
    requires Answers(a, b, response) && Cut(a, b, response, |TxsFor(a, b, response, o)|, c, o) && DistinctWork(a.batches[b].request.items)
    requires b.generation == g && EnrichedBut(a, g, todo) && g in c.generations
    requires c.generations[g].content.sources == a.generations[g].content.sources && SameWorkItems(a, c)
    ensures EnrichedBut(c, g, todo - {b})
  {
    hide Ran, SubmitTxs, FullyEnriched, DistinctWork, Guidances;
    var txs, items := TxsFor(a, b, response, o), a.batches[b].request.items;
    assert txs[..|txs|] == txs;
    forall t | t in c.generations[g].content.sources
      ensures FullyEnriched(c.generations[g].content, t) || AskedIn(c.batches, todo - {b}, t)
    {
      if t in WorkTools(items) {
        var i :| 0 <= i < |items| && items[i].0 == t;
        WholeSubmissionEnriches(a, b, response, c, o, i);
      } else if FullyEnriched(a.generations[g].content, t) {
        SubmissionKeepsEnriched(a, b, response, |txs|, c, o, t);
      } else {
        var x :| x in todo && x in a.batches && t in RequestTools(a.batches[x].request);
        assert x in todo - {b} && c.batches[x].request == a.batches[x].request;
      }
    }
  }

  lemma SubmissionStaysUnderway(a: Db, b: BatchId, response: Response, n: nat, c: Db, g: GenerationId, hash: string, o: Tools)
    requires Underway(a, g, hash, o) && Cut(a, b, response, n, c, o) && b.generation == g
    requires IndexSound(c) && SameSources(a, c)
    ensures Underway(c, g, hash, o)
  {
    hide IndexSound, RowsAgree, Ran, SubmitTxs, Based, DistinctWork;
    SoundBatches(a, g);
    SubmittingKeepsRows(a, b, response, n, c, o);
    forall t | t in c.generations[g].content.sources ensures Based(c.generations[g].content, t, o) {
      CutKeepsBased(a, b, response, n, c, o, t);
    }
  }

  /** The answer to a batch: the one that was accepted, or else a new one. */
  function AnswerTo(batches: map<BatchId, Batch>, b: BatchId, answers: map<BatchId, Response>): Option<Response> {
    if b in batches && batches[b].accepted.Some? then batches[b].accepted
    else if b in answers then Some(answers[b])
    else None
  }

  /** Submits an answer to every tool batch of a generation. */
  method SubmitAll(cat: Catalog, g: GenerationId, answers: map<BatchId, Response>, o: Tools, ghost hash: string) returns (e: Option<Error>)
    requires Underway(cat.Tables(), g, hash, o) && AllProvided(cat.Tables(), g) && Faithful(o)
    requires !HasBatch(cat.batches, g, CapabilityBatch)
    modifies cat
    ensures IndexSound(cat.Tables()) && RowsAgree(cat.Tables(), o.provider)
    ensures e.None? ==>
              && Underway(cat.Tables(), g, hash, o) && EnrichedBut(cat.Tables(), g, {})
              && !HasBatch(cat.batches, g, CapabilityBatch)
  {
    hide IndexSound, RowsAgree, AllBased, EnrichedBut, AllProvided, SameSources, Cut, VectorsExist, AcceptableFor, SubmitTxs;
    var todo := set b | b in cat.batches && b.generation == g && b.kind.ToolBatch?;
    ToolWork(cat.Tables(), g, todo);
    ProvidedIsEnrichedBut(cat.Tables(), g, todo);
    while todo != {}
      invariant Underway(cat.Tables(), g, hash, o) && EnrichedBut(cat.Tables(), g, todo)
      invariant cat.batches.Keys == old(cat.batches.Keys)
      invariant forall b :: b in todo ==> b in cat.batches && b.generation == g && b.kind.ToolBatch?
      decreases |todo|
    {
      var b :| b in todo;
      var answer := AnswerTo(cat.batches, b, answers);
      if answer.None? { return Some(BatchNotFound); }
      ghost var db, n := cat.Tables(), 0;
      e, n := SubmitToolBatch(cat, b, answer.value, o);
      if Answers(db, b, answer.value) {
        SubmissionStaysUnderway(db, b, answer.value, n, cat.Tables(), g, hash, o);
      }
      if e.Some? { return; }
      SoundBatches(db, g);
      SourcesKept(db, cat.Tables(), g);
      CutKeepsWork(db, b, answer.value, n, cat.Tables(), o);
      OneBatchLess(db, b, answer.value, cat.Tables(), g, todo, o);
      todo := todo - {b};
    }
    e := None;
  }

  lemma ToolWork(db: Db, g: GenerationId, todo: set<BatchId>)
    requires IndexSound(db) && todo == set b | b in db.batches && b.generation == g && b.kind.ToolBatch?
    ensures forall b :: b in db.batches && b.generation == g && db.batches[b].request.ToolRequest? ==> b in todo
  {
    hide GenerationSound;
  }

  // ---------------------------------------------------------------------------------------------
  // Reconciliation
  // ---------------------------------------------------------------------------------------------

  ghost predicate AllEnriched(c: Content) {
    forall t :: t in c.sources ==> FullyEnriched(c, t)
  }

  ghost predicate HierarchyFulfilled(c: Content) {
    Fulfilled(c, CapabilityGate) && Fulfilled(c, ArtifactKey(HierarchySlot))
  }

  /** Building the hierarchy keeps everything else. */
  lemma HierarchyStaysUnderway(a: Db, txs: seq<Tx>, b: Db, g: GenerationId, hash: string, o: Tools)
    requires Underway(a, g, hash, o) && Ran(a, txs, b) && AboutHierarchy(txs, g) && AllEnriched(a.generations[g].content)
    requires IndexSound(b) && SameSources(a, b)
    ensures Underway(b, g, hash, o) && AllEnriched(b.generations[g].content)
  {
    hide IndexSound, RowsAgree, Ran, Based, FullyEnriched, AboutHierarchy;
    HierarchyKeepsRows(a, txs, b, g, o.provider);
    HierarchySparesBase(txs, g);
    forall t | t in b.generations[g].content.sources
      ensures Based(b.generations[g].content, t, o) && FullyEnriched(b.generations[g].content, t)
    {
      RunKeepsBased(a, txs, b, g, t, o);
      HierarchyKeepsEnriched(a, txs, b, g, t);
    }
  }

  /** No new work but reviews, and what was answered stays answered. */
  ghost predicate OnlyReviewsAdded(x: map<BatchId, Batch>, y: map<BatchId, Batch>) {
    forall b :: b in y && !b.kind.ReviewBatch? ==> b in x && (x[b].accepted.Some? ==> y[b].accepted.Some?)
  }

  lemma WriteAddsReviews(a: Db, tx: Tx)
    requires Repeatable(tx) && Exec(a, tx).Ok? && (tx.PutBatches? ==> forall b :: b in tx.batches ==> b.kind.ReviewBatch?)
    ensures OnlyReviewsAdded(a.batches, Exec(a, tx).value.batches)
  {
  }

  lemma {:induction false} RunAddsReviews(a: Db, txs: seq<Tx>, b: Db)
    requires Ran(a, txs, b) && forall x :: x in txs ==> Repeatable(x)
    requires forall x, y :: x in txs && x.PutBatches? && y in x.batches ==> y.kind.ReviewBatch?
    ensures OnlyReviewsAdded(a.batches, b.batches)
    decreases |txs|
  {
    hide Exec, Repeatable;
    if txs != [] {
      assert txs[0] in txs;
      WriteAddsReviews(a, txs[0]);
      RunAddsReviews(Exec(a, txs[0]).value, txs[1..], b);
    }
  }

  lemma CapabilityAddsReviews(a: Db, b: BatchId, response: Response, c: Db)
    requires CapabilityCut(a, b, response, 6, c)
    ensures OnlyReviewsAdded(a.batches, c.batches)
  {
    hide Ran, GuidanceItems, OnlyReviewsAdded, Agree;
    var txs := CapabilityTxsFor(a, b, response);
    assert txs[..6] == txs;
    CapabilityIsCoherent(a.generations[b.generation].content, b, a.batches[b].request.tools, response.hierarchy, response.proposals);
    CoherentIsRepeatable(txs);
    RunAddsReviews(a, txs, c);
  }

  /** With the tool batches and the capability batch answered, no required batch is left. */
  lemma NothingIsPending(a: Db, b: Db, g: GenerationId, provider: string)
    requires CapabilityHandedOut(a, g) && OnlyReviewsAdded(a.batches, b.batches) && RowsAgree(b, provider)
    requires CapabilityId(g) in b.batches && b.batches[CapabilityId(g)].accepted.Some?
    ensures !RequiredPending(b.batches, g)
  {
    hide AllHave, RowsRight;
  }

  /** Hands out the capability batch and submits the response to it, unless a stored hierarchy answers it. */
  method Reconcile(cat: Catalog, g: GenerationId, response: Response, maxTools: nat, valid: bool, o: Tools, ghost hash: string) returns (e: Option<Error>)
    requires Underway(cat.Tables(), g, hash, o) && AllEnriched(cat.generations[g].content) && Faithful(o)
    requires !HasBatch(cat.batches, g, CapabilityBatch)
    modifies cat
    ensures IndexSound(cat.Tables()) && RowsAgree(cat.Tables(), o.provider)
    ensures e.None? ==>
              && Underway(cat.Tables(), g, hash, o)
              && AllEnriched(cat.generations[g].content) && HierarchyFulfilled(cat.generations[g].content)
              && !RequiredPending(cat.batches, g)
  {
    hide IndexSound, RowsAgree, AllBased, AllEnriched, SameSources, Ran, AskTxs, Asking, Recapping, HierarchyOf, Reusable, CapabilityTxsFor;
    hide HierarchyFulfilled, HierarchyDeclared, SameBase, RequiredPending, AllHave;
    ghost var db0, c0 := cat.Tables(), cat.generations[g].content;
    ghost var found := Reusable(cat.artifacts, HierarchyOf(c0), o.choose);
    e := PrepareCapabilityReconciliation(cat, g, maxTools, o.choose, valid);
    ghost var db1 := cat.Tables();
    ReconcilingKeepsRows(db0, db1, g, o.provider);
    if e.Some? { return; }
    AskWorks(db0, db1, g, found, hash, o);
    AskAccepts(db0, db1, g, found);
    var b := CapabilityId(g);
    if cat.batches[b].accepted.Some? {
      NothingIsPending(db1, db1, g, o.provider);
      return None;
    }
    ghost var n;
    e, n := SubmitCapabilityBatch(cat, b, response, valid);
    if Reconciles(db1, b, response, valid) {
      CapabilityCutKeepsRows(db1, b, response, n, cat.Tables(), o.provider);
    }
    if e.Some? { return; }
    AnswerWorks(db1, b, response, cat.Tables(), g, hash, o);
    CapabilityAddsReviews(db1, b, response, cat.Tables());
    NothingIsPending(db1, cat.Tables(), g, o.provider);
  }

  lemma AskWorks(a: Db, b: Db, g: GenerationId, found: Option<Artifact>, hash: string, o: Tools)
    requires Underway(a, g, hash, o) && AllEnriched(a.generations[g].content) && IndexSound(b) && SameSources(a, b)
    requires Ran(a, AskTxs(a.generations[g].content, g, found), b)
    ensures Underway(b, g, hash, o) && AllEnriched(b.generations[g].content)
    ensures if found.Some? then HierarchyFulfilled(b.generations[g].content) else HierarchyDeclared(b.generations[g].content)
  {
    hide IndexSound, RowsAgree, AllBased, AllEnriched, SameSources, Ran, AskTxs, AboutHierarchy, HierarchyDeclared, Fulfilled, SameBase;
    var txs := AskTxs(a.generations[g].content, g, found);
    assert txs[..|txs|] == txs;
    AskIsAboutHierarchy(a.generations[g].content, g, found, |txs|);
    HierarchyStaysUnderway(a, txs, b, g, hash, o);
    AskDeclares(a, b, g, found);
  }

  /** The capability batch is answered already exactly if a stored hierarchy was found. */
  lemma AskAccepts(a: Db, b: Db, g: GenerationId, found: Option<Artifact>)
    requires g in a.generations && Ran(a, AskTxs(a.generations[g].content, g, found), b) && CapabilityId(g) !in a.batches
    requires CapabilityId(g) in b.batches
    ensures b.batches[CapabilityId(g)].accepted.Some? <==> found.Some?
  {
    hide Ran, Exec, Agree, HierarchyOf, AboutHierarchy;
    var c := a.generations[g].content;
    if found.Some? {
      var txs := AskTxs(c, g, found);
      assert txs[..|txs|] == txs && [] + txs == txs;
      AskIsAboutHierarchy(c, g, found, |txs|);
      AboutIsCoherent(txs, g);
      RanIsDone(a, txs, b, []);
      assert Done(b, txs[3]);
    } else {
      var txs := AskTxs(c, g, None);
      var d := MiddleOf(a, txs[..2], txs[2], b) by { assert txs[..2] + [txs[2]] == txs; }
      assert forall x :: x in txs[..2] ==> !x.PutBatches? && !x.AcceptBatch?;
      RanKeepsBatches(a, txs[..2], d);
      PutBatchesOnly(d, CapabilityWork(g, c));
    }
  }

  lemma AnswerWorks(a: Db, b: BatchId, response: Response, c: Db, g: GenerationId, hash: string, o: Tools)
    requires Underway(a, g, hash, o) && AllEnriched(a.generations[g].content) && HierarchyDeclared(a.generations[g].content)
    requires b == CapabilityId(g) && CapabilityCut(a, b, response, 6, c) && IndexSound(c) && SameSources(a, c)
    requires CapabilityHandedOut(a, g)
    ensures Underway(c, g, hash, o) && AllEnriched(c.generations[g].content) && HierarchyFulfilled(c.generations[g].content)
  {
    hide IndexSound, RowsAgree, AllBased, AllEnriched, SameSources, Ran, CapabilityTxs, AboutHierarchy, HierarchyDeclared, Fulfilled, SameBase, AllHave;
    var txs := CapabilityTxsFor(a, b, response);
    assert txs[..6] == txs;
    CapabilityIsAboutHierarchy(a.generations[g].content, b, a.batches[b].request.tools, response.hierarchy, response.proposals, 6);
    HierarchyStaysUnderway(a, txs, c, g, hash, o);
    WholeCapabilityFulfils(a, b, response, c);
  }

  // ---------------------------------------------------------------------------------------------
  // Promotion
  // ---------------------------------------------------------------------------------------------

  /** Nothing but a member that was declared and never became a source, or a dirty marker, stands in the way of promotion. */
  lemma BuiltIsPromotableIff(db: Db, g: GenerationId, hash: string, o: Tools)
    requires Underway(db, g, hash, o) && AllEnriched(db.generations[g].content) && HierarchyFulfilled(db.generations[g].content)
    ensures RequirementsReady(db.generations[g].content)
    ensures PromoteError(db, g, hash).None? <==>
              db.dirty == map[] && db.generations[g].content.members.Keys <= db.generations[g].content.sources.Keys
  {
    hide IndexSound, RequirementsReady, Based, FullyEnriched, KeysOfSources, GatesMatch, ArtifactsMatch, Fulfilled, MembersReady;
    var c := db.generations[g].content;
    MatchesIn(db, g);
    assert RowsRight(c, WorkOf(db.batches, g), o.provider);
    AllRequirementsReady(c, o);
    MembersReadyIff(c, o);
    CompleteMembers(c, o);
  }

  lemma CompleteMembers(c: Content, o: Tools)
    requires forall t :: t in c.sources ==> Based(c, t, o)
    ensures (exists t :: t in c.members && (!c.members[t].complete || c.members[t].actual.None? || t !in c.sources))
            <==> !(c.members.Keys <= c.sources.Keys)
  {
  }

  /**
   A build in which every operation succeeds ends with every requirement fulfilled as expected and no
   required batch pending. Whatever the catalog held before, the generation can then be promoted exactly if nothing is dirty and every
   member that was ever declared in it is a source.
   */
  method BuildGeneration(cat: Catalog, hash: string, servers: seq<ServerEntry>, snapshots: map<string, Snapshot>, newId: GenerationId,
                         limits: Limits, maxTools: nat, o: Tools, answers: map<BatchId, Response>, hierarchy: Response, valid: bool)
    returns (e: Option<Error>, g: GenerationId)
    requires IndexSound(cat.Tables()) && RowsAgree(cat.Tables(), o.provider) && Faithful(o) && limits.batchSize > 0
    modifies cat
    ensures IndexSound(cat.Tables()) && RowsAgree(cat.Tables(), o.provider)
    ensures e.None? ==>
              && StagingWith(cat.generations, g, hash) && RequirementsReady(cat.generations[g].content)
              && !RequiredPending(cat.batches, g) && AllIndexed(cat.generations[g].content, o)
              && (PromoteError(cat.Tables(), g, hash).None? <==>
                    cat.dirty == map[] && cat.generations[g].content.members.Keys <= cat.generations[g].content.sources.Keys)
  {
    hide IndexSound, RowsAgree, AllBased, AllProvided, EnrichedBut, AllEnriched, HierarchyFulfilled, SchemasDeclared, RequirementsReady, RequiredPending, AllIndexed;
    e, g := Refresh(cat, hash, servers, snapshots, newId, limits, o);
    if e.Some? { return; }
    if HasBatch(cat.batches, g, CapabilityBatch) {
      return Some(BatchConflict), g;
    }
    e := SubmitAll(cat, g, answers, o, hash);
    if e.Some? { return; }
    NobodyIsLeft(cat.Tables(), g);
    e := Reconcile(cat, g, hierarchy, maxTools, valid, o, hash);
    if e.Some? { return; }
    BuiltIsPromotableIff(cat.Tables(), g, hash, o);
    BasedIsIndexed(cat.Tables(), g, o);
  }

  lemma NobodyIsLeft(db: Db, g: GenerationId)
    requires EnrichedBut(db, g, {})
    ensures AllEnriched(db.generations[g].content)
  {
  }
}
