/**
 Submitting an agent's answer: it is accepted once, and then its effects are written. A submission may
 stop after any write; submitting the accepted answer again finishes it.
 */
module Submission {
  import opened Common
  import opened CatalogModel
  import opened CatalogTables
  import opened IndexInvariant
  import opened IndexBuild
  import opened IndexEnrichment

  /** The writes for one item of a batch, with the vector that the stored artifacts determine. */
  function ItemTxs(g: GenerationId, item: Work, guidance: map<Tool, string>, artifacts: set<Artifact>, o: Tools): (txs: seq<Tx>)
    ensures |txs| == 8
  {
    var (t, contract) := item;
    var text := if t in guidance then guidance[t] else "";
    ToolTxs(g, t, contract, text, EnrichedOr(artifacts, t, text, o), o)
  }

  function ItemsTxs(g: GenerationId, items: seq<Work>, guidance: map<Tool, string>, artifacts: set<Artifact>, o: Tools): (txs: seq<Tx>)
    ensures |txs| == 8 * |items|
  {
    if items == [] then []
    else ItemsTxs(g, items[..|items| - 1], guidance, artifacts, o) + ItemTxs(g, items[|items| - 1], guidance, artifacts, o)
  }

  /** All writes of a submission: the acceptance, and then everything that the answers lead to. */
  function SubmitTxs(artifacts: set<Artifact>, b: BatchId, items: seq<Work>, answers: seq<ToolAnswer>, o: Tools): seq<Tx> {
    [AcceptBatch(b, ToolResponse(answers))] + ItemsTxs(b.generation, items, Guidances(answers), artifacts, o)
  }

  lemma {:induction false} ItemsPrefix(g: GenerationId, items: seq<Work>, guidance: map<Tool, string>, artifacts: set<Artifact>, o: Tools, i: nat)
    requires i < |items|
    ensures ItemsTxs(g, items, guidance, artifacts, o)[..8 * i] == ItemsTxs(g, items[..i], guidance, artifacts, o)
    ensures ItemsTxs(g, items, guidance, artifacts, o)[8 * i..8 * i + 8] == ItemTxs(g, items[i], guidance, artifacts, o)
    decreases |items|
  {
    hide ItemTxs;
    var init := items[..|items| - 1];
    if i < |init| {
      ItemsPrefix(g, init, guidance, artifacts, o, i);
      assert init[..i] == items[..i];
    }
  }

  /** A tool batch whose generation is being built, as long as only content changes. */
  ghost predicate Working(db: Db, b: BatchId, items: seq<Work>) {
    && Building(db, b.generation) && b in db.batches && db.batches[b].request == ToolRequest(items)
  }

  method SubmitItem(cat: Catalog, b: BatchId, items: seq<Work>, i: nat, guidance: map<Tool, string>, o: Tools, ghost before: set<Artifact>)
    returns (e: Option<Error>, ghost n: nat)
    requires Faithful(o) && i < |items| && Working(cat.Tables(), b, items)
    requires AddedFor(before, cat.artifacts, WorkTools(items[..i]), o)
    modifies cat
    ensures Working(cat.Tables(), b, items) && OnlyContent(old(cat.Tables()), cat.Tables(), b.generation)
    ensures cat.generations[b.generation].content.sources == old(cat.generations[b.generation].content.sources)
    ensures old(cat.generations[b.generation].content.requirements.Keys) <= cat.generations[b.generation].content.requirements.Keys
    ensures AddedFor(before, cat.artifacts, WorkTools(items[..i + 1]), o)
    ensures n <= 8 && (e.None? ==> n == 8)
    ensures Ran(old(cat.Tables()), ItemTxs(b.generation, items[i], guidance, before, o)[..n], cat.Tables())
    ensures e.None? ==> VectorsExist(before, [items[i]], guidance, o)
  {
    hide IndexSound, Exec, Ran;
    var (t, contract) := items[i];
    var text := if t in guidance then guidance[t] else "";
    BatchedMayGuide(cat.Tables(), b, i);
    StillDistinct(cat.Tables(), b, items, i);
    AddedVectorStable(before, cat.artifacts, WorkTools(items[..i]), t, text, o);
    ghost var a;
    e, a, n := GuideTool(cat, b.generation, t, contract, text, o);
    AddedNext(before, old(cat.artifacts), cat.artifacts, items, i, GuidanceOf(contract, text), a, text, o);
  }

  lemma StillDistinct(db: Db, b: BatchId, items: seq<Work>, i: nat)
    requires Working(db, b, items) && i < |items|
    ensures items[i].0 !in WorkTools(items[..i])
  {
  }

  lemma AddedNext(before: set<Artifact>, middle: set<Artifact>, after: set<Artifact>, items: seq<Work>, i: nat,
                  guided: Artifact, vector: Artifact, text: string, o: Tools)
    requires i < |items| && AddedFor(before, middle, WorkTools(items[..i]), o)
    requires middle <= after <= middle + {guided, vector}
    requires guided.spec.GuidanceSpec? && vector.spec == EnrichedSpec(items[i].0, text, o)
    ensures AddedFor(before, after, WorkTools(items[..i + 1]), o)
  {
    assert items[..i + 1][i].0 in WorkTools(items[..i + 1]);
    assert WorkTools(items[..i]) <= WorkTools(items[..i + 1]) by {
      assert forall k :: 0 <= k < i ==> items[..i][k] == items[..i + 1][k];
    }
  }

  lemma PartOfPart(txs: seq<Tx>, at: nat, m: nat, k: nat)
    requires m <= k && at + k <= |txs|
    ensures txs[at..at + m] == txs[at..at + k][..m]
  {
  }

  /** Writes the effects of accepted answers, item by item. */
  method SubmitItems(cat: Catalog, b: BatchId, items: seq<Work>, guidance: map<Tool, string>, o: Tools)
    returns (e: Option<Error>, ghost n: nat)
    requires Faithful(o) && Working(cat.Tables(), b, items)
    modifies cat
    ensures Working(cat.Tables(), b, items) && OnlyContent(old(cat.Tables()), cat.Tables(), b.generation)
    ensures cat.generations[b.generation].content.sources == old(cat.generations[b.generation].content.sources)
    ensures old(cat.generations[b.generation].content.requirements.Keys) <= cat.generations[b.generation].content.requirements.Keys
    ensures n <= 8 * |items| && (e.None? ==> n == 8 * |items|)
    ensures Ran(old(cat.Tables()), ItemsTxs(b.generation, items, guidance, old(cat.artifacts), o)[..n], cat.Tables())
    ensures e.None? ==> VectorsExist(old(cat.artifacts), items, guidance, o)
  {
    hide IndexSound, Exec, Ran, ItemTxs, AddedFor, WorkTools, VectorsExist;
    ghost var db0 := cat.Tables();
    ghost var txs := ItemsTxs(b.generation, items, guidance, db0.artifacts, o);
    NothingRan(db0, txs);
    NothingAdded(db0.artifacts, items, guidance, o);
    assert OnlyContent(db0, cat.Tables(), b.generation);
    e, n := None, 0;
    for i := 0 to |items|
      invariant Working(cat.Tables(), b, items) && OnlyContent(db0, cat.Tables(), b.generation)
      invariant cat.generations[b.generation].content.sources == db0.generations[b.generation].content.sources
      invariant db0.generations[b.generation].content.requirements.Keys <= cat.generations[b.generation].content.requirements.Keys
      invariant AddedFor(db0.artifacts, cat.artifacts, WorkTools(items[..i]), o)
      invariant n == 8 * i && Ran(db0, txs[..n], cat.Tables()) && e.None?
      invariant VectorsExist(db0.artifacts, items[..i], guidance, o)
    {
      ghost var db, m := cat.Tables(), 0;
      e, m := SubmitItem(cat, b, items, i, guidance, o, db0.artifacts);
      OnlyContentTransitive(db0, db, cat.Tables(), b.generation);
      ItemsPrefix(b.generation, items, guidance, db0.artifacts, o, i);
      PartOfPart(txs, 8 * i, m, 8);
      RanMore(db0, txs, n, m, db, cat.Tables());
      n := n + m;
      if e.Some? { return; }
      VectorsNext(db0.artifacts, items, guidance, o, i);
    }
    assert items[..|items|] == items;
  }

  lemma VectorsNext(artifacts: set<Artifact>, items: seq<Work>, guidance: map<Tool, string>, o: Tools, i: nat)
    requires i < |items| && VectorsExist(artifacts, items[..i], guidance, o) && VectorsExist(artifacts, [items[i]], guidance, o)
    ensures VectorsExist(artifacts, items[..i + 1], guidance, o)
  {
    hide EnrichedVector;
    assert [items[i]][0] == items[i];
    assert forall k :: 0 <= k < i ==> items[..i + 1][k] == items[..i][k];
  }

  lemma NothingAdded(artifacts: set<Artifact>, items: seq<Work>, guidance: map<Tool, string>, o: Tools)
    ensures AddedFor(artifacts, artifacts, WorkTools(items[..0]), o) && VectorsExist(artifacts, items[..0], guidance, o)
  {
  }

  lemma AcceptKeeps(db: Db, b: BatchId, r: Response)
    requires IndexSound(db) && Exec(db, AcceptBatch(b, r)).Ok?
    ensures IndexSound(After(db, AcceptBatch(b, r)))
  {
    hide GenerationSound;
    var u := After(db, AcceptBatch(b, r));
    forall g | g in u.generations
      ensures BatchTools(u, g) == BatchTools(db, g) && ReconciledTools(u, g) == ReconciledTools(db, g)
    {
      SameRequests(db, u, g);
    }
  }

  lemma SameRequests(a: Db, b: Db, g: GenerationId)
    requires a.batches.Keys == b.batches.Keys && forall x :: x in a.batches ==> a.batches[x].request == b.batches[x].request
    ensures BatchTools(a, g) == BatchTools(b, g) && ReconciledTools(a, g) == ReconciledTools(b, g)
  {
    assert BatchTools(a, g) <= BatchTools(b, g) <= BatchTools(a, g);
    assert ReconciledTools(a, g) <= ReconciledTools(b, g) <= ReconciledTools(a, g);
  }

  /** A tool batch and answers to it. */
  ghost predicate Answers(db: Db, b: BatchId, response: Response) {
    b in db.batches && b.kind.ToolBatch? && db.batches[b].request.ToolRequest? && response.ToolResponse?
  }

  ghost function TxsFor(db: Db, b: BatchId, response: Response, o: Tools): seq<Tx>
    requires Answers(db, b, response)
  {
    SubmitTxs(db.artifacts, b, db.batches[b].request.items, response.answers, o)
  }

  /** A submission leads from one state to the other when it is cut off after some number of its writes. */
  ghost predicate Cut(a: Db, b: BatchId, response: Response, writes: nat, c: Db, o: Tools) {
    && Answers(a, b, response)
    && writes <= |TxsFor(a, b, response, o)| && Ran(a, TxsFor(a, b, response, o)[..writes], c)
  }

  /** A stored or a new enriched vector is to be had for every item. */
  ghost predicate VectorsExist(artifacts: set<Artifact>, items: seq<Work>, guidance: map<Tool, string>, o: Tools) {
    forall i :: 0 <= i < |items| ==>
      EnrichedVector(artifacts, items[i].0, if items[i].0 in guidance then guidance[items[i].0] else "", o).Some?
  }

  /** The answers pass the tests that come before acceptance. */
  ghost predicate AcceptableFor(db: Db, b: BatchId, response: Response)
    requires Answers(db, b, response)
  {
    && b.generation in db.generations
    && ValidAnswers(db.batches[b].request.items, response.answers, db.generations[b.generation].content.sources.Keys)
  }

  lemma BatchKnown(db: Db, b: BatchId)
    requires IndexSound(db) && b in db.batches
    ensures b.generation in db.generations && b.generation != "" && WellFormed(b.kind, db.batches[b].request)
  {
    hide GenerationSound;
  }

  lemma SubmitParts(artifacts: set<Artifact>, b: BatchId, items: seq<Work>, answers: seq<ToolAnswer>, o: Tools)
    ensures var txs := SubmitTxs(artifacts, b, items, answers, o);
            && |txs| == 1 + 8 * |items| && txs[0] == AcceptBatch(b, ToolResponse(answers))
            && txs[1..] == ItemsTxs(b.generation, items, Guidances(answers), artifacts, o)
  {
  }

  /** Acceptance changes nothing but the batch. */
  lemma AcceptOnly(db: Db, b: BatchId, r: Response)
    requires Exec(db, AcceptBatch(b, r)).Ok?
    ensures var u := Exec(db, AcceptBatch(b, r)).value;
            && u.generations == db.generations && u.artifacts == db.artifacts && b in u.batches && b in db.batches
            && u.batches[b].request == db.batches[b].request && SameSources(db, u)
  {
  }

  /**
   Submits answers to a tool batch. Whatever happens, the index stays sound and the state is that after
   some number of the submission's writes: all of them if it succeeds on a staging generation, and none
   if the answers are refused. A repeated submission to a generation that has been built changes nothing.
   */
  method SubmitToolBatch(cat: Catalog, b: BatchId, response: Response, o: Tools) returns (e: Option<Error>, ghost n: nat)
    requires IndexSound(cat.Tables()) && Faithful(o)
    modifies cat
    ensures IndexSound(cat.Tables()) && SameSources(old(cat.Tables()), cat.Tables())
    ensures !Answers(old(cat.Tables()), b, response) ==> e.Some? && cat.Tables() == old(cat.Tables())
    ensures Answers(old(cat.Tables()), b, response) ==>
              && Cut(old(cat.Tables()), b, response, n, cat.Tables(), o)
              && (!AcceptableFor(old(cat.Tables()), b, response) ==> e.Some? && n == 0)
              && (e.None? ==>
                    if old(cat.generations[b.generation].status) == Staging
                    then && n == |TxsFor(old(cat.Tables()), b, response, o)|
                         && VectorsExist(old(cat.artifacts), old(cat.batches)[b].request.items, Guidances(response.answers), o)
                    else cat.Tables() == old(cat.Tables()))
  {
    hide IndexSound, Exec, Ran, ValidAnswers, SubmitTxs, SameSources, VectorsExist;
    SameSourcesReflexive(cat.Tables());
    n := 0;
    if b !in cat.batches || !b.kind.ToolBatch? || !response.ToolResponse? {
      return Some(BatchNotFound), 0;
    }
    BatchKnown(cat.Tables(), b);
    ghost var db0, txs := cat.Tables(), TxsFor(cat.Tables(), b, response, o);
    var items, answers := cat.batches[b].request.items, response.answers;
    NothingRan(db0, txs);
    var results := CheckAnswers(items, answers, cat.generations[b.generation].content.sources.Keys);
    if results.None? {
      return Some(MissingArgument), 0;
    }
    e := cat.AcceptEnrichmentBatch(b, response);
    if e.Some? { return; }
    AcceptKeeps(db0, b, response);
    ghost var db1 := cat.Tables();
    SubmitParts(db0.artifacts, b, items, answers, o);
    RanNext(db0, txs, 0, db0, db1);
    AcceptOnly(db0, b, response);
    n := 1;
    if cat.generations[b.generation].status != Staging {
      UnchangedByRepeat(db0, b, response);
      return;
    }
    e, n := WriteAnswers(cat, b, items, results.value, o, db0, txs);
    SameSourcesTransitive(db0, db1, cat.Tables());
  }

  /** The writes that follow the acceptance. */
  method WriteAnswers(cat: Catalog, b: BatchId, items: seq<Work>, guidance: map<Tool, string>, o: Tools, ghost db0: Db, ghost txs: seq<Tx>)
    returns (e: Option<Error>, ghost n: nat)
    requires Faithful(o) && Working(cat.Tables(), b, items) && txs != [] && Ran(db0, txs[..1], cat.Tables())
    requires txs[1..] == ItemsTxs(b.generation, items, guidance, cat.artifacts, o)
    modifies cat
    ensures IndexSound(cat.Tables()) && SameSources(old(cat.Tables()), cat.Tables())
    ensures n <= |txs| && Ran(db0, txs[..n], cat.Tables())
    ensures e.None? ==> n == |txs| && VectorsExist(old(cat.artifacts), items, guidance, o)
  {
    hide IndexSound, Exec, Ran, ItemsTxs, VectorsExist;
    ghost var m, db1 := 0, cat.Tables();
    e, m := SubmitItems(cat, b, items, guidance, o);
    OnlyContentSame(db1, cat.Tables(), b.generation);
    assert txs[1..1 + m] == txs[1..][..m];
    RanMore(db0, txs, 1, m, db1, cat.Tables());
    n := 1 + m;
  }

  lemma UnchangedByRepeat(db: Db, b: BatchId, response: Response)
    requires Exec(db, AcceptBatch(b, response)).Ok? && b.generation in db.generations && !b.kind.ReviewBatch?
    requires db.generations[b.generation].status != Staging
    ensures After(db, AcceptBatch(b, response)) == db
  {
    assert db.batches[b].accepted == Some(response);
  }

  // ---------------------------------------------------------------------------------------------
  // The writes of a capability submission
  // ---------------------------------------------------------------------------------------------

  /** Guidance that the tools have, by tool. */
  function GuidanceItems(c: Content, tools: set<Tool>): map<Tool, string> {
    map t | t in tools && ToolSlot(Guidance, t) in c.attached :: c.attached[ToolSlot(Guidance, t)].payload
  }

  /** The batches that a capability submission adds for its open questions. */
  function ReviewBatches(g: GenerationId, proposals: seq<string>): map<BatchId, Batch> {
    map i | 0 <= i < |proposals| :: BatchId(g, ReviewBatch, Review(i, proposals[i])) := Batch(false, ReviewRequest(proposals[i]), None)
  }

  /** The writes that attach a stored hierarchy: its requirement and the gate. */
  function HoldTxs(g: GenerationId, spec: Spec, a: Artifact, sources: map<Tool, string>): (txs: seq<Tx>)
    ensures |txs| == 3
  {
    FulfillTxs(g, HierarchySlot, spec, a) + [SatisfyDependency(g, CapabilityGate, OfSources(sources))]
  }

  /** The writes that attach a hierarchy: the artifact, its requirement and the gate. */
  function HierarchyTxs(g: GenerationId, spec: Spec, hierarchy: string, sources: map<Tool, string>): seq<Tx> {
    [PutArtifact(Artifact(spec, hierarchy))] + HoldTxs(g, spec, Artifact(spec, hierarchy), sources)
  }

  /** All writes of a capability submission: the acceptance, the review batches and the hierarchy. */
  function CapabilityTxs(c: Content, b: BatchId, tools: set<Tool>, hierarchy: string, proposals: seq<string>): seq<Tx> {
    [AcceptBatch(b, CapabilityResponse(hierarchy, proposals)), PutBatches(ReviewBatches(b.generation, proposals))]
    + HierarchyTxs(b.generation, HierarchySpec(GuidanceItems(c, tools)), hierarchy, c.sources)
  }

  lemma HierarchyLength(g: GenerationId, spec: Spec, hierarchy: string, sources: map<Tool, string>)
    ensures |HierarchyTxs(g, spec, hierarchy, sources)| == 4
  {
  }

  /** A capability batch and a response to it that passed validation. */
  ghost predicate Reconciles(db: Db, b: BatchId, response: Response, valid: bool) {
    b in db.batches && b.kind.CapabilityBatch? && db.batches[b].request.CapabilityRequest? && response.CapabilityResponse? && valid
  }

  ghost function CapabilityTxsFor(db: Db, b: BatchId, response: Response): (txs: seq<Tx>)
    requires Reconciles(db, b, response, true) && b.generation in db.generations
    ensures |txs| == 6
  {
    CapabilityTxs(db.generations[b.generation].content, b, db.batches[b].request.tools, response.hierarchy, response.proposals)
  }

  lemma CapabilityLength(db: Db, b: BatchId, response: Response)
    requires Reconciles(db, b, response, true) && b.generation in db.generations
    ensures var c, txs := db.generations[b.generation].content, CapabilityTxsFor(db, b, response);
            && |txs| == 6 && txs[0] == AcceptBatch(b, response)
            && txs[1..] == [PutBatches(ReviewBatches(b.generation, response.proposals))]
                           + HierarchyTxs(b.generation, HierarchySpec(GuidanceItems(c, db.batches[b].request.tools)), response.hierarchy, c.sources)
  {
    var c := db.generations[b.generation].content;
    HierarchyLength(b.generation, HierarchySpec(GuidanceItems(c, db.batches[b].request.tools)), response.hierarchy, c.sources);
  }

  /** A capability submission leads from one state to the other when it is cut off after some number of its writes. */
  ghost predicate CapabilityCut(a: Db, b: BatchId, response: Response, writes: nat, c: Db) {
    && Reconciles(a, b, response, true) && b.generation in a.generations
    && writes <= 6 && Ran(a, CapabilityTxsFor(a, b, response)[..writes], c)
  }
}
