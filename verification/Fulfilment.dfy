/**
 How the requirement rows of a generation move: every list of writes that enrichment makes keeps them
 right, wherever it is cut off, and what is handed out and answered ends up fulfilled.
 */
module Fulfilment {
  import opened Common
  import opened CatalogModel
  import opened CatalogTables
  import opened Confluence
  import opened GreedyBatches
  import opened IndexInvariant
  import opened IndexBuild
  import opened IndexEnrichment
  import opened Submission
  import opened Replay
  import opened ToolPreparation
  import opened CapabilityPreparation

  // ---------------------------------------------------------------------------------------------
  // Rows that a list of writes does not touch
  // ---------------------------------------------------------------------------------------------

  predicate Declared(tx: Tx, g: GenerationId, key: Key) {
    tx.RequireDependency? && tx.id == g && tx.key == key
  }

  predicate Sets(tx: Tx, g: GenerationId, key: Key) {
    (tx.RequireDependency? || tx.SatisfyDependency?) && tx.id == g && tx.key == key
  }

  predicate SameRow(c: Content, d: Content, key: Key) {
    (key in c.requirements <==> key in d.requirements) && (key in c.requirements ==> d.requirements[key] == c.requirements[key])
  }

  predicate SameExpected(c: Content, d: Content, key: Key) {
    key in c.requirements ==> key in d.requirements && d.requirements[key].expected == c.requirements[key].expected
  }

  /** Sources, members and lexical records, which only a refresh changes. */
  predicate SameBase(c: Content, d: Content) {
    d.sources == c.sources && d.members == c.members && d.lexical == c.lexical && c.attached.Keys <= d.attached.Keys
  }

  lemma WriteKeepsRow(a: Db, tx: Tx, g: GenerationId, key: Key)
    requires Repeatable(tx) && Exec(a, tx).Ok? && g in a.generations
    ensures var b := Exec(a, tx).value;
            && b.generations.Keys == a.generations.Keys
            && b.generations[g] == a.generations[g].(content := b.generations[g].content)
            && SameBase(a.generations[g].content, b.generations[g].content)
            && (!Sets(tx, g, key) ==> SameRow(a.generations[g].content, b.generations[g].content, key))
            && (!Declared(tx, g, key) ==> SameExpected(a.generations[g].content, b.generations[g].content, key))
            && (key in b.generations[g].content.requirements ==> key in a.generations[g].content.requirements || Declared(tx, g, key))
  {
  }

  lemma {:induction false} RunKeepsRow(a: Db, txs: seq<Tx>, b: Db, g: GenerationId, key: Key)
    requires Ran(a, txs, b) && g in a.generations && forall x :: x in txs ==> Repeatable(x)
    ensures b.generations.Keys == a.generations.Keys && b.generations[g] == a.generations[g].(content := b.generations[g].content)
    ensures var c, d := a.generations[g].content, b.generations[g].content;
            && SameBase(c, d)
            && ((forall x :: x in txs ==> !Sets(x, g, key)) ==> SameRow(c, d, key))
            && ((forall x :: x in txs ==> !Declared(x, g, key)) ==> SameExpected(c, d, key))
            && (key in d.requirements && key !in c.requirements ==> exists x :: x in txs && Declared(x, g, key))
    decreases |txs|
  {
    hide Exec, Repeatable;
    if txs != [] {
      var next := Exec(a, txs[0]).value;
      WriteKeepsRow(a, txs[0], g, key);
      RunKeepsRow(next, txs[1..], b, g, key);
      assert txs[0] in txs;
    }
  }

  lemma CoherentIsRepeatable(txs: seq<Tx>)
    requires Coherent(txs)
    ensures forall x :: x in txs ==> Repeatable(x)
  {
    hide Repeatable;
    forall x | x in txs ensures Repeatable(x) {
      AgreeRepeatable(x, x);
    }
  }

  // ---------------------------------------------------------------------------------------------
  // Lists of writes that keep the rows right
  // ---------------------------------------------------------------------------------------------

  /** Only requirements of sources are declared, and none that a work item relies on. */
  ghost predicate DeclaresRightly(txs: seq<Tx>, g: GenerationId, c: Content, work: set<Work>) {
    && (forall x, t :: x in txs && x.RequireDependency? && x.id == g && KeyOf(x.key, t) ==> t in c.sources)
    && (forall x, w :: x in txs && w in work ==>
          !Declared(x, g, ArtifactKey(ToolSlot(Guidance, w.0))) && !Declared(x, g, EnrichedGate(w.0)))
  }

  /** A gate is satisfied as the same list, or the row before it, expects. */
  ghost predicate SatisfiesRightly(txs: seq<Tx>, g: GenerationId, c: Content) {
    forall x, t :: x in txs && x.SatisfyDependency? && x.id == g && x.key == EnrichedGate(t) ==>
      || RequireDependency(g, EnrichedGate(t), x.actual) in txs
      || (&& EnrichedGate(t) in c.requirements && c.requirements[EnrichedGate(t)].expected == x.actual
          && forall y :: y in txs ==> !Declared(y, g, EnrichedGate(t)))
  }

  /** Sources that no work item is about are left alone. */
  ghost predicate LeavesEnriched(txs: seq<Tx>, g: GenerationId, c: Content, work: set<Work>) {
    work != {} ==> forall t, x, key :: t in c.sources && !Asked(work, t) && x in txs && key in EnrichmentKeys(t) ==> !Sets(x, g, key)
  }

  lemma KeysStayOfSources(a: Db, txs: seq<Tx>, b: Db, g: GenerationId, work: set<Work>)
    requires Ran(a, txs, b) && Coherent(txs) && g in a.generations && KeysOfSources(a.generations[g].content)
    requires DeclaresRightly(txs, g, a.generations[g].content, work)
    ensures g in b.generations && KeysOfSources(b.generations[g].content)
  {
    hide Ran, Agree, Repeatable;
    CoherentIsRepeatable(txs);
    RunKeepsRow(a, txs, b, g, CapabilityGate);
    forall key, t | key in b.generations[g].content.requirements && KeyOf(key, t) ensures t in b.generations[g].content.sources {
      RunKeepsRow(a, txs, b, g, key);
    }
  }

  lemma GatesStayMatched(a: Db, txs: seq<Tx>, b: Db, g: GenerationId)
    requires Ran(a, txs, b) && Coherent(txs) && g in a.generations && GatesMatch(a.generations[g].content)
    requires SatisfiesRightly(txs, g, a.generations[g].content)
    ensures g in b.generations && GatesMatch(b.generations[g].content)
  {
    hide Ran, Agree, Repeatable, Exec;
    CoherentIsRepeatable(txs);
    RunKeepsRow(a, txs, b, g, CapabilityGate);
    assert [] + txs == txs;
    RanIsDone(a, txs, b, []);
    var c, d := a.generations[g].content, b.generations[g].content;
    forall t | Complete(d, EnrichedGate(t)) ensures d.requirements[EnrichedGate(t)].actual == Some(d.requirements[EnrichedGate(t)].expected) {
      var key := EnrichedGate(t);
      RunKeepsRow(a, txs, b, g, key);
      if x :| x in txs && x.SatisfyDependency? && x.id == g && x.key == key {
        assert Done(b, x);
        if RequireDependency(g, key, x.actual) in txs {
          assert Done(b, RequireDependency(g, key, x.actual));
        }
      } else if y :| y in txs && Declared(y, g, key) {
        assert Done(b, y);
      }
    }
  }

  lemma WorkStaysDeclared(a: Db, txs: seq<Tx>, b: Db, g: GenerationId, work: set<Work>, provider: string)
    requires Ran(a, txs, b) && Coherent(txs) && g in a.generations && DeclaresRightly(txs, g, a.generations[g].content, work)
    requires forall w :: w in work ==> DeclaredFor(a.generations[g].content, w, provider)
    ensures g in b.generations && forall w :: w in work ==> DeclaredFor(b.generations[g].content, w, provider)
  {
    hide Ran, Agree, Repeatable;
    CoherentIsRepeatable(txs);
    RunKeepsRow(a, txs, b, g, CapabilityGate);
    forall w | w in work ensures DeclaredFor(b.generations[g].content, w, provider) {
      RunKeepsRow(a, txs, b, g, ArtifactKey(ToolSlot(Guidance, w.0)));
      RunKeepsRow(a, txs, b, g, EnrichedGate(w.0));
    }
  }

  lemma OthersStayEnriched(a: Db, txs: seq<Tx>, b: Db, g: GenerationId, t: Tool)
    requires Ran(a, txs, b) && Coherent(txs) && g in a.generations && FullyEnriched(a.generations[g].content, t)
    requires forall x, key :: x in txs && key in EnrichmentKeys(t) ==> !Sets(x, g, key)
    ensures g in b.generations && FullyEnriched(b.generations[g].content, t)
  {
    hide Ran, Agree, Repeatable;
    CoherentIsRepeatable(txs);
    RunKeepsRow(a, txs, b, g, CapabilityGate);
    forall key | key in EnrichmentKeys(t) ensures Complete(b.generations[g].content, key) {
      RunKeepsRow(a, txs, b, g, key);
    }
  }

  lemma RunKeepsRight(a: Db, txs: seq<Tx>, b: Db, g: GenerationId, work: set<Work>, provider: string)
    requires Ran(a, txs, b) && Coherent(txs) && g in a.generations && RowsRight(a.generations[g].content, work, provider)
    requires DeclaresRightly(txs, g, a.generations[g].content, work) && SatisfiesRightly(txs, g, a.generations[g].content)
    requires LeavesEnriched(txs, g, a.generations[g].content, work)
    ensures g in b.generations && RowsRight(b.generations[g].content, work, provider)
  {
    hide Ran, Agree, KeysOfSources, GatesMatch, DeclaresRightly, SatisfiesRightly, FullyEnriched, DeclaredFor;
    KeysStayOfSources(a, txs, b, g, work);
    GatesStayMatched(a, txs, b, g);
    WorkStaysDeclared(a, txs, b, g, work, provider);
    CoherentIsRepeatable(txs);
    RunKeepsRow(a, txs, b, g, CapabilityGate);
    var c, d := a.generations[g].content, b.generations[g].content;
    if work != {} {
      forall t | t in d.sources ensures Asked(work, t) || FullyEnriched(d, t) {
        if !Asked(work, t) {
          OthersStayEnriched(a, txs, b, g, t);
        }
      }
    }
  }

  /** The same tool batches ask for the same work. */
  ghost predicate SameToolWork(x: map<BatchId, Batch>, y: map<BatchId, Batch>) {
    forall b ::
      && (b in x && x[b].request.ToolRequest? ==> b in y && y[b].request == x[b].request)
      && (b in y && y[b].request.ToolRequest? ==> b in x && y[b].request == x[b].request)
  }

  lemma SameWorkOf(x: map<BatchId, Batch>, y: map<BatchId, Batch>, g: GenerationId)
    requires SameToolWork(x, y)
    ensures WorkOf(x, g) == WorkOf(y, g)
  {
    assert WorkOf(x, g) <= WorkOf(y, g) <= WorkOf(x, g);
  }

  /** A list of writes to one generation, about whose rows the three conditions hold. */
  ghost predicate WritesRightly(txs: seq<Tx>, g: GenerationId, a: Db) {
    && Coherent(txs) && g in a.generations
    && (forall x :: x in txs && (x.RequireDependency? || x.SatisfyDependency?) ==> x.id == g)
    && DeclaresRightly(txs, g, a.generations[g].content, WorkOf(a.batches, g))
    && SatisfiesRightly(txs, g, a.generations[g].content)
    && LeavesEnriched(txs, g, a.generations[g].content, WorkOf(a.batches, g))
  }

  lemma OtherGenerations(txs: seq<Tx>, g: GenerationId, h: GenerationId, c: Content, work: set<Work>)
    requires h != g && forall x :: x in txs && (x.RequireDependency? || x.SatisfyDependency?) ==> x.id == g
    ensures DeclaresRightly(txs, h, c, work) && SatisfiesRightly(txs, h, c) && LeavesEnriched(txs, h, c, work)
  {
  }

  lemma ListKeepsRows(a: Db, txs: seq<Tx>, b: Db, g: GenerationId, provider: string)
    requires Ran(a, txs, b) && RowsAgree(a, provider) && WritesRightly(txs, g, a)
    requires SameToolWork(a.batches, b.batches) && BatchesProper(b.batches)
    ensures RowsAgree(b, provider)
  {
    hide Ran, Agree, RowsRight, DeclaresRightly, SatisfiesRightly, LeavesEnriched, WorkOf;
    CoherentIsRepeatable(txs);
    RunKeepsRow(a, txs, b, g, CapabilityGate);
    forall h | h in b.generations ensures RowsRight(b.generations[h].content, WorkOf(b.batches, h), provider) {
      SameWorkOf(a.batches, b.batches, h);
      if h != g {
        OtherGenerations(txs, g, h, a.generations[h].content, WorkOf(a.batches, h));
      }
      RunKeepsRight(a, txs, b, h, WorkOf(a.batches, h), provider);
    }
  }

  // ---------------------------------------------------------------------------------------------
  // Submissions
  // ---------------------------------------------------------------------------------------------

  lemma ItemWrites(g: GenerationId, item: Work, guidance: map<Tool, string>, artifacts: set<Artifact>, o: Tools, x: Tx)
    requires x in ItemTxs(g, item, guidance, artifacts, o)
    ensures About(x, g, item.0)
    ensures x.RequireDependency? ==> x.key == ArtifactKey(ToolSlot(Enriched, item.0))
    ensures x.SatisfyDependency? ==> x.key in EnrichmentKeys(item.0)
    ensures x.SatisfyDependency? && x.key.EnrichedGate? ==> x.key == EnrichedGate(item.0) && x.actual == OfGate(o.provider, item.1)
  {
    hide EnrichedOr, EnrichedSpec, GuidanceOf;
  }

  lemma WorkItem(batches: map<BatchId, Batch>, b: BatchId, i: nat)
    requires b in batches && batches[b].request.ToolRequest? && i < |batches[b].request.items|
    ensures var w := batches[b].request.items[i]; w in WorkOf(batches, b.generation) && Asked(WorkOf(batches, b.generation), w.0)
  {
  }

  /** What a write of a submission is: its acceptance, or a write for a work item that the rows are ready for. */
  ghost predicate ForItem(x: Tx, g: GenerationId, w: Work, provider: string) {
    && About(x, g, w.0)
    && (x.RequireDependency? ==> x.key == ArtifactKey(ToolSlot(Enriched, w.0)))
    && (x.SatisfyDependency? ==> x.key in EnrichmentKeys(w.0))
    && (x.SatisfyDependency? && x.key.EnrichedGate? ==> x.key == EnrichedGate(w.0) && x.actual == OfGate(provider, w.1))
  }

  lemma SubmissionWrite(a: Db, b: BatchId, response: Response, o: Tools, x: Tx)
    requires Answers(a, b, response) && x in TxsFor(a, b, response, o)
    ensures x.AcceptBatch? || exists w :: w in WorkOf(a.batches, b.generation) && ForItem(x, b.generation, w, o.provider)
  {
    hide ItemTxs, About, Guidances, WorkOf;
    var items := a.batches[b].request.items;
    if !x.AcceptBatch? {
      var i := WriteOfItem(b.generation, items, Guidances(response.answers), a.artifacts, o, x);
      ItemWrites(b.generation, items[i], Guidances(response.answers), a.artifacts, o, x);
      WorkItem(a.batches, b, i);
    }
  }

  /** Writes for work items keep to what the rows say. */
  lemma ItemsWriteRightly(txs: seq<Tx>, g: GenerationId, c: Content, work: set<Work>, provider: string)
    requires RowsRight(c, work, provider)
    requires forall x :: x in txs ==> x.AcceptBatch? || exists w :: w in work && ForItem(x, g, w, provider)
    ensures DeclaresRightly(txs, g, c, work) && SatisfiesRightly(txs, g, c) && LeavesEnriched(txs, g, c, work)
    ensures forall x :: x in txs && (x.RequireDependency? || x.SatisfyDependency?) ==> x.id == g
  {
    hide GatesMatch, FullyEnriched;
    forall x, t | x in txs && x.RequireDependency? && x.id == g && KeyOf(x.key, t) ensures t in c.sources {
      var w :| w in work && ForItem(x, g, w, provider);
      assert DeclaredFor(c, w, provider) && KeyOf(EnrichedGate(w.0), w.0);
    }
    forall x, t | x in txs && x.SatisfyDependency? && x.id == g && x.key == EnrichedGate(t)
      ensures EnrichedGate(t) in c.requirements && c.requirements[EnrichedGate(t)].expected == x.actual
    {
      var w :| w in work && ForItem(x, g, w, provider);
      assert DeclaredFor(c, w, provider);
    }
  }

  lemma CutKeepsRows(a: Db, b: BatchId, response: Response, n: nat, c: Db, o: Tools)
    requires Cut(a, b, response, n, c, o) && RowsAgree(a, o.provider) && b.generation in a.generations
    requires DistinctWork(a.batches[b].request.items)
    ensures RowsAgree(c, o.provider)
  {
    hide Ran, Agree, SubmitTxs, RowsRight, WorkOf, ForItem, DeclaresRightly, SatisfiesRightly, LeavesEnriched;
    var txs, g := TxsFor(a, b, response, o), b.generation;
    SubmissionIsCoherent(a.artifacts, b, a.batches[b].request.items, response.answers, o);
    forall x | x in txs[..n] ensures x in txs && (x.AcceptBatch? || exists w :: w in WorkOf(a.batches, g) && ForItem(x, g, w, o.provider)) {
      SubmissionWrite(a, b, response, o, x);
    }
    ItemsWriteRightly(txs[..n], g, a.generations[g].content, WorkOf(a.batches, g), o.provider);
    CutKeepsWork(a, b, response, n, c, o);
    ListKeepsRows(a, txs[..n], c, g, o.provider);
  }

  ghost predicate AllDistinct(batches: map<BatchId, Batch>) {
    forall b :: b in batches && batches[b].request.ToolRequest? ==> DistinctWork(batches[b].request.items)
  }

  lemma {:induction false} HistoryKeepsRows(plan: Plan, ws: seq<Db>, tries: seq<Attempt>, n: nat, g: GenerationId, o: Tools)
    requires Attempted(plan, ws, tries, o) && n <= |tries| && RowsAgree(ws[0], o.provider) && AllDistinct(ws[0].batches)
    requires (forall b :: b in plan ==> b.generation == g) && g in ws[0].generations
    ensures RowsAgree(ws[n], o.provider) && AllDistinct(ws[n].batches) && g in ws[n].generations
    decreases n
  {
    hide Cut, RowsAgree, DistinctWork;
    if n > 0 {
      HistoryKeepsRows(plan, ws, tries, n - 1, g, o);
      var try := tries[n - 1];
      CutAnswers(ws[n - 1], try.batch, plan[try.batch], try.writes, ws[n], o);
      CutKeepsRows(ws[n - 1], try.batch, plan[try.batch], try.writes, ws[n], o);
      CutKeepsWork(ws[n - 1], try.batch, plan[try.batch], try.writes, ws[n], o);
    }
  }

  lemma CutAnswers(a: Db, b: BatchId, response: Response, n: nat, c: Db, o: Tools)
    requires Cut(a, b, response, n, c, o)
    ensures Answers(a, b, response) && forall g :: g in a.generations ==> g in c.generations
  {
    hide Exec;
    RanExtends(a, TxsFor(a, b, response, o)[..n], c);
  }

  lemma InterruptedKeepsRows(a: Db, plan: Plan, c: Db, g: GenerationId, o: Tools)
    requires Interrupted(a, plan, c, o) && RowsAgree(a, o.provider) && AllDistinct(a.batches)
    requires (forall b :: b in plan ==> b.generation == g) && g in a.generations
    ensures RowsAgree(c, o.provider)
  {
    hide Cut, RowsAgree, DistinctWork;
    var ws: seq<Db>, tries: seq<Attempt> :| Attempted(plan, ws, tries, o) && ws[0] == a && ws[|tries|] == c;
    HistoryKeepsRows(plan, ws, tries, |tries|, g, o);
  }

  // ---------------------------------------------------------------------------------------------
  // Preparation of tools
  // ---------------------------------------------------------------------------------------------

  /** The writes that may be made for one tool, whatever the fingerprints and artifacts. */
  function BlockWrites(g: GenerationId, t: Tool, guidance: Fingerprint, gate: Fingerprint, enriched: Fingerprint, a: Artifact, vector: Artifact): set<Tx> {
    {RequireDependency(g, ArtifactKey(ToolSlot(Guidance, t)), guidance), RequireDependency(g, EnrichedGate(t), gate),
     AttachArtifact(g, ToolSlot(Guidance, t), a), SatisfyDependency(g, ArtifactKey(ToolSlot(Guidance, t)), guidance),
     RequireDependency(g, ArtifactKey(ToolSlot(Enriched, t)), enriched), PutArtifact(vector),
     AttachArtifact(g, ToolSlot(Enriched, t), vector), SatisfyDependency(g, ArtifactKey(ToolSlot(Enriched, t)), enriched),
     SatisfyDependency(g, EnrichedGate(t), gate)}
  }

  lemma BlockWritesAgree(g: GenerationId, t: Tool, guidance: Fingerprint, gate: Fingerprint, enriched: Fingerprint, a: Artifact, vector: Artifact)
    ensures forall x, y :: x in BlockWrites(g, t, guidance, gate, enriched, a, vector) && y in BlockWrites(g, t, guidance, gate, enriched, a, vector) ==> Agree(x, y)
    ensures forall x :: x in BlockWrites(g, t, guidance, gate, enriched, a, vector) ==> About(x, g, t)
  {
  }

  lemma BlockAgrees(artifacts: set<Artifact>, g: GenerationId, t: Tool, contract: string, o: Tools)
    ensures Coherent(PrepareToolTxs(artifacts, g, t, contract, o))
    ensures forall x :: x in PrepareToolTxs(artifacts, g, t, contract, o) ==> About(x, g, t)
  {
    hide Reusable, EnrichedOr, Agree, About;
    var found := Reusable(artifacts, GuidanceSpec(contract), o.choose);
    var a := if found.Some? then found.value else Artifact(GuidanceSpec(contract), "");
    var vector, s := EnrichedOr(artifacts, t, a.payload, o), EnrichedSpec(t, a.payload, o);
    var all := BlockWrites(g, t, OfSpec(GuidanceSpec(contract)), OfGate(o.provider, contract), OfSpec(s), a, vector);
    BlockWritesAgree(g, t, OfSpec(GuidanceSpec(contract)), OfGate(o.provider, contract), OfSpec(s), a, vector);
    assert forall x :: x in PrepareToolTxs(artifacts, g, t, contract, o) ==> x in all;
  }

  /** Within the writes for one tool, the gate is declared before it is satisfied, with the same fingerprint. */
  lemma BlockDeclaresFirst(artifacts: set<Artifact>, g: GenerationId, t: Tool, contract: string, o: Tools, m: nat, x: Tx)
    requires m <= |PrepareToolTxs(artifacts, g, t, contract, o)| && x in PrepareToolTxs(artifacts, g, t, contract, o)[..m]
    requires x.SatisfyDependency? && x.key.EnrichedGate?
    ensures RequireDependency(g, x.key, x.actual) in PrepareToolTxs(artifacts, g, t, contract, o)[..m]
  {
    hide Reusable, EnrichedOr;
    var txs := PrepareToolTxs(artifacts, g, t, contract, o);
    assert x != txs[0] && x != txs[1];
    assert m >= 2 && txs[..m][1] == txs[1];
  }

  /** Every write of a preparation belongs to one of the tools. */
  lemma {:induction false} WriteOfTool(artifacts: set<Artifact>, g: GenerationId, order: seq<Work>, o: Tools, x: Tx) returns (i: nat)
    requires x in PrepareTxs(artifacts, g, order, o)
    ensures i < |order| && x in PrepareToolTxs(StoredByAll(artifacts, order[..i], o), g, order[i].0, order[i].1, o)
    decreases |order|
  {
    hide PrepareToolTxs, StoredByAll;
    i := |order| - 1;
    if x !in PrepareToolTxs(StoredByAll(artifacts, order[..i], o), g, order[i].0, order[i].1, o) {
      var j := WriteOfTool(artifacts, g, order[..i], o, x);
      assert order[..i][..j] == order[..j];
      i := j;
    }
  }

  lemma PreparationIsCoherent(artifacts: set<Artifact>, g: GenerationId, order: seq<Work>, o: Tools)
    requires DistinctWork(order)
    ensures Coherent(PrepareTxs(artifacts, g, order, o))
  {
    hide PrepareToolTxs, PrepareTxs, StoredByAll, Agree, About;
    var txs := PrepareTxs(artifacts, g, order, o);
    forall x, y | x in txs && y in txs ensures Agree(x, y) {
      var i := WriteOfTool(artifacts, g, order, o, x);
      var j := WriteOfTool(artifacts, g, order, o, y);
      BlockAgrees(StoredByAll(artifacts, order[..i], o), g, order[i].0, order[i].1, o);
      BlockAgrees(StoredByAll(artifacts, order[..j], o), g, order[j].0, order[j].1, o);
      if i != j {
        OtherToolsAgree(x, y, g, order[i].0, order[j].0);
      }
    }
  }

  lemma GateAgrees(g: GenerationId, f: Fingerprint, x: Tx, t: Tool)
    requires About(x, g, t)
    ensures Agree(RequireDependency(g, CapabilityGate, f), x) && Agree(x, RequireDependency(g, CapabilityGate, f))
    ensures Agree(RequireDependency(g, CapabilityGate, f), RequireDependency(g, CapabilityGate, f))
  {
  }

  lemma DeclarationIsCoherent(sources: map<Tool, string>, artifacts: set<Artifact>, g: GenerationId, order: seq<Work>, o: Tools)
    requires DistinctWork(order)
    ensures Coherent(DeclareTxs(sources, artifacts, g, order, o))
  {
    hide PrepareTxs, Agree, About, DistinctWork;
    PreparationIsCoherent(artifacts, g, order, o);
    var gate, rest := RequireDependency(g, CapabilityGate, OfSources(sources)), PrepareTxs(artifacts, g, order, o);
    forall x | x in rest ensures Agree(gate, x) && Agree(x, gate) {
      var i := WriteOfTool(artifacts, g, order, o, x);
      BlockAgrees(StoredByAll(artifacts, order[..i], o), g, order[i].0, order[i].1, o);
      GateAgrees(g, OfSources(sources), x, order[i].0);
    }
    GateAgrees(g, OfSources(sources), PutArtifact(Artifact(LexicalSpec(""), "")), Tool("", "")) by { AnyArtifact(g); }
  }

  lemma AnyArtifact(g: GenerationId)
    ensures About(PutArtifact(Artifact(LexicalSpec(""), "")), g, Tool("", ""))
  {
  }

  /** In every part of a preparation from its beginning, a gate that is satisfied was declared before. */
  lemma {:induction false} DeclaredBefore(artifacts: set<Artifact>, g: GenerationId, order: seq<Work>, o: Tools, n: nat, x: Tx)
    requires n <= |PrepareTxs(artifacts, g, order, o)| && x in PrepareTxs(artifacts, g, order, o)[..n]
    requires x.SatisfyDependency? && x.key.EnrichedGate?
    ensures RequireDependency(g, x.key, x.actual) in PrepareTxs(artifacts, g, order, o)[..n]
    decreases |order|
  {
    hide PrepareToolTxs, StoredByAll;
    var k := |order| - 1;
    var before := PrepareTxs(artifacts, g, order[..k], o);
    var block := PrepareToolTxs(StoredByAll(artifacts, order[..k], o), g, order[k].0, order[k].1, o);
    var txs := before + block;
    if n <= |before| {
      assert txs[..n] == before[..n];
      DeclaredBefore(artifacts, g, order[..k], o, n, x);
    } else {
      var m := n - |before|;
      assert txs[..n] == before + block[..m];
      if x in block[..m] {
        BlockDeclaresFirst(StoredByAll(artifacts, order[..k], o), g, order[k].0, order[k].1, o, m, x);
      } else {
        assert before[..|before|] == before;
        DeclaredBefore(artifacts, g, order[..k], o, |before|, x);
      }
    }
  }

  lemma AboutKeys(x: Tx, g: GenerationId, t: Tool)
    requires About(x, g, t) && (x.RequireDependency? || x.SatisfyDependency?)
    ensures x.id == g && KeyOf(x.key, t)
  {
  }

  lemma OneToolPerKey(key: Key, t: Tool, u: Tool)
    requires KeyOf(key, t) && KeyOf(key, u)
    ensures t == u
  {
  }

  /** Any part of a preparation from its beginning keeps to the rows, while no work is handed out. */
  lemma DeclaringWritesRightly(c: Content, artifacts: set<Artifact>, g: GenerationId, order: seq<Work>, n: nat, o: Tools)
    requires Enumerates(order, c.sources, WorkTools(order)) && n <= |DeclareTxs(c.sources, artifacts, g, order, o)|
    ensures var txs := DeclareTxs(c.sources, artifacts, g, order, o)[..n];
            && Coherent(txs) && DeclaresRightly(txs, g, c, {}) && SatisfiesRightly(txs, g, c)
            && (forall x :: x in txs && (x.RequireDependency? || x.SatisfyDependency?) ==> x.id == g)
  {
    hide PrepareTxs, StoredByAll, Agree, About;
    var all := DeclareTxs(c.sources, artifacts, g, order, o);
    var txs, rest := all[..n], PrepareTxs(artifacts, g, order, o);
    DeclarationIsCoherent(c.sources, artifacts, g, order, o);
    assert forall x :: x in txs ==> x in all;
    forall x | x in txs && (x.RequireDependency? || x.SatisfyDependency?)
      ensures x.id == g && (x == all[0] || exists i :: 0 <= i < |order| && KeyOf(x.key, order[i].0))
    {
      if x != all[0] {
        var i := WriteOfTool(artifacts, g, order, o, x);
        BlockAgrees(StoredByAll(artifacts, order[..i], o), g, order[i].0, order[i].1, o);
        AboutKeys(x, g, order[i].0);
      }
    }
    forall x, t | x in txs && x.RequireDependency? && x.id == g && KeyOf(x.key, t) ensures t in c.sources {
      var i :| 0 <= i < |order| && KeyOf(x.key, order[i].0);
      OneToolPerKey(x.key, t, order[i].0);
    }
    forall x, t | x in txs && x.SatisfyDependency? && x.id == g && x.key == EnrichedGate(t)
      ensures RequireDependency(g, EnrichedGate(t), x.actual) in txs
    {
      assert txs == [all[0]] + rest[..n - 1];
      assert x in rest[..n - 1];
      DeclaredBefore(artifacts, g, order, o, n - 1, x);
    }
  }

  lemma DeclaringKeepsRows(a: Db, b: Db, g: GenerationId, order: seq<Work>, n: nat, o: Tools)
    requires Declares(a, b, g, order, n, o) && RowsAgree(a, o.provider) && WorkOf(a.batches, g) == {}
    ensures RowsAgree(b, o.provider) && b.batches == a.batches
  {
    hide Ran, Agree, DeclareTxs, Enumerates, RowsRight, DeclaresRightly, SatisfiesRightly, WorkOf;
    var c := a.generations[g].content;
    var txs := DeclareTxs(c.sources, a.artifacts, g, order, o)[..n];
    DeclaringWritesRightly(c, a.artifacts, g, order, n, o);
    assert WorkOf(a.batches, g) == {};
    DeclaringKeepsBatches(a, b, g, order, n, o);
    ListKeepsRows(a, txs, b, g, o.provider);
  }

  lemma DeclaringKeepsBatches(a: Db, b: Db, g: GenerationId, order: seq<Work>, n: nat, o: Tools)
    requires Declares(a, b, g, order, n, o)
    ensures b.batches == a.batches
  {
    hide Ran, PrepareTxs, StoredByAll, About, PrepareToolTxs;
    var c := a.generations[g].content;
    var all := DeclareTxs(c.sources, a.artifacts, g, order, o);
    forall x | x in all[..n] ensures !x.PutBatches? && !x.AcceptBatch? {
      assert x in all;
      if x != all[0] {
        var i := WriteOfTool(a.artifacts, g, order, o, x);
        BlockAgrees(StoredByAll(a.artifacts, order[..i], o), g, order[i].0, order[i].1, o);
        AboutIsNoBatch(x, g, order[i].0);
      }
    }
    RanKeepsBatches(a, all[..n], b);
  }

  lemma {:induction false} BlockIsPart(artifacts: set<Artifact>, g: GenerationId, order: seq<Work>, o: Tools, i: nat, x: Tx)
    requires i < |order| && x in PrepareToolTxs(StoredByAll(artifacts, order[..i], o), g, order[i].0, order[i].1, o)
    ensures x in PrepareTxs(artifacts, g, order, o)
    decreases |order|
  {
    hide PrepareToolTxs, StoredByAll;
    var k := |order| - 1;
    if i < k {
      assert order[..k][..i] == order[..i];
      BlockIsPart(artifacts, g, order[..k], o, i, x);
    }
  }

  lemma {:induction false} StoredGrows(artifacts: set<Artifact>, order: seq<Work>, o: Tools)
    ensures artifacts <= StoredByAll(artifacts, order, o)
    decreases |order|
  {
    if order != [] {
      StoredGrows(artifacts, order[..|order| - 1], o);
    }
  }

  /** A preparation that got through has declared every source as its contract says, and enriched those with stored guidance. */
  lemma PreparedRows(a: Db, d: Db, g: GenerationId, order: seq<Work>, i: nat, o: Tools)
    requires g in a.generations && i < |order| && DistinctWork(order)
    requires Ran(a, DeclareTxs(a.generations[g].content.sources, a.artifacts, g, order, o), d)
    ensures g in d.generations && DeclaredFor(d.generations[g].content, order[i], o.provider)
    ensures HasGuidance(a.artifacts, order[i].1) ==> FullyEnriched(d.generations[g].content, order[i].0)
  {
    hide Ran, Exec, Agree, PrepareTxs, StoredByAll, PrepareToolTxs, Repeatable;
    var txs := DeclareTxs(a.generations[g].content.sources, a.artifacts, g, order, o);
    DeclarationIsCoherent(a.generations[g].content.sources, a.artifacts, g, order, o);
    assert [] + txs == txs;
    RanIsDone(a, txs, d, []);
    CoherentIsRepeatable(txs);
    RunKeepsRow(a, txs, d, g, CapabilityGate);
    var stored, t, k := StoredByAll(a.artifacts, order[..i], o), order[i].0, order[i].1;
    forall x | x in PrepareToolTxs(stored, g, t, k, o) ensures Done(d, x) {
      BlockIsPart(a.artifacts, g, order, o, i, x);
    }
    StoredGrows(a.artifacts, order[..i], o);
    BlockDone(d, stored, g, t, k, o);
  }

  lemma ReusableWhenStored(artifacts: set<Artifact>, a: Artifact, choose: set<Artifact> -> Artifact)
    requires a in artifacts
    ensures Reusable(artifacts, a.spec, choose).Some?
  {
    var spec := a.spec;
    var candidates := set x | x in artifacts && x.spec == spec;
    assert a in candidates;
  }

  lemma BlockDone(d: Db, stored: set<Artifact>, g: GenerationId, t: Tool, k: string, o: Tools)
    requires forall x :: x in PrepareToolTxs(stored, g, t, k, o) ==> Done(d, x)
    requires g in d.generations
    ensures DeclaredFor(d.generations[g].content, (t, k), o.provider)
    ensures HasGuidance(stored, k) ==> FullyEnriched(d.generations[g].content, t)
  {
    hide EnrichedOr, EnrichedSpec;
    var txs := PrepareToolTxs(stored, g, t, k, o);
    assert txs[0] == RequireDependency(g, ArtifactKey(ToolSlot(Guidance, t)), OfSpec(GuidanceSpec(k)));
    assert txs[1] == RequireDependency(g, EnrichedGate(t), OfGate(o.provider, k));
    assert Done(d, txs[0]) && Done(d, txs[1]);
    if HasGuidance(stored, k) {
      var a :| a in stored && a.spec == GuidanceSpec(k);
      ReusableWhenStored(stored, a, o.choose);
      assert txs[3] == SatisfyDependency(g, ArtifactKey(ToolSlot(Guidance, t)), OfSpec(GuidanceSpec(k)));
      assert txs[7].SatisfyDependency? && txs[7].id == g && txs[7].key == ArtifactKey(ToolSlot(Enriched, t));
      assert txs[8] == SatisfyDependency(g, EnrichedGate(t), OfGate(o.provider, k));
      assert Done(d, txs[3]) && Done(d, txs[7]) && Done(d, txs[8]);
    }
  }

  lemma {:induction false} InSomePart<T>(parts: seq<seq<T>>, x: T) returns (k: nat, i: nat)
    requires x in Flatten(parts)
    ensures k < |parts| && i < |parts[k]| && parts[k][i] == x
  {
    if x in parts[0] {
      k := 0;
      i :| 0 <= i < |parts[0]| && parts[0][i] == x;
    } else {
      k, i := InSomePart(parts[1..], x);
      k := k + 1;
    }
  }

  /** The work of a generation to which its first batches were added is what the parts hold. */
  lemma NewWork(batches: map<BatchId, Batch>, g: GenerationId, parts: seq<seq<Work>>)
    requires WorkOf(batches, g) == {} && forall b :: b in batches && b.generation == g ==> !batches[b].request.ToolRequest?
    requires forall b :: b in batches && b.generation == g ==> !b.kind.ToolBatch?
    ensures forall w :: w in WorkOf(ToolBatches(g, parts) + batches, g) <==> w in Flatten(parts)
  {
    hide Flatten;
    var all := ToolBatches(g, parts) + batches;
    forall w | w in Flatten(parts) ensures w in WorkOf(all, g) {
      var k, i := InSomePart(parts, w);
      var b := BatchId(g, ToolBatch, Ordinal(k));
      assert b in all && all[b].request.items[i] == w;
    }
    forall w | w in WorkOf(all, g) ensures w in Flatten(parts) {
      var b, i :| b in all && b.generation == g && all[b].request.ToolRequest? && 0 <= i < |all[b].request.items| && all[b].request.items[i] == w;
      assert b !in batches;
      FlattenAt(parts, b.key.n);
      assert w in parts[b.key.n];
      var start := |Flatten(parts[..b.key.n])|;
      assert Flatten(parts)[start..start + |parts[b.key.n]|][i] == w;
    }
  }

  lemma OtherWork(batches: map<BatchId, Batch>, g: GenerationId, parts: seq<seq<Work>>, h: GenerationId)
    requires h != g
    ensures WorkOf(ToolBatches(g, parts) + batches, h) == WorkOf(batches, h)
  {
    var all := ToolBatches(g, parts) + batches;
    assert forall b :: b in all && b.generation == h ==> b in batches && all[b] == batches[b];
    assert WorkOf(all, h) <= WorkOf(batches, h) <= WorkOf(all, h);
  }

  /** Every source is asked for or enriched. */
  ghost predicate AllProvided(db: Db, g: GenerationId) {
    g in db.generations && forall t :: t in db.generations[g].content.sources ==>
      Asked(WorkOf(db.batches, g), t) || FullyEnriched(db.generations[g].content, t)
  }

  lemma WorkIsDeclared(a: Db, d: Db, g: GenerationId, order: seq<Work>, pending: seq<Work>, w: Work, o: Tools)
    requires g in a.generations && Enumerates(order, a.generations[g].content.sources, a.generations[g].content.sources.Keys)
    requires Ran(a, DeclareTxs(a.generations[g].content.sources, a.artifacts, g, order, o), d)
    requires w.0 in a.generations[g].content.sources && w.1 == a.generations[g].content.sources[w.0]
    ensures g in d.generations && DeclaredFor(d.generations[g].content, w, o.provider)
    ensures HasGuidance(a.artifacts, w.1) ==> FullyEnriched(d.generations[g].content, w.0)
  {
    hide Ran, DeclareTxs, FullyEnriched, HasGuidance;
    assert w.0 in WorkTools(order);
    var i :| 0 <= i < |order| && order[i].0 == w.0;
    PreparedRows(a, d, g, order, i, o);
  }

  /** Batches that are handed out ask for what the rows have declared. */
  lemma HandedOutIsRight(a: Db, d: Db, batches: map<BatchId, Batch>, g: GenerationId, order: seq<Work>, pending: seq<Work>, o: Tools)
    requires g in a.generations && g in d.generations && d.generations[g].content.sources == a.generations[g].content.sources
    requires RowsRight(d.generations[g].content, {}, o.provider)
    requires Enumerates(order, a.generations[g].content.sources, a.generations[g].content.sources.Keys)
    requires Ran(a, DeclareTxs(a.generations[g].content.sources, a.artifacts, g, order, o), d)
    requires forall w :: w in WorkOf(batches, g) <==> w in pending
    requires WorkIsExact(d.generations[g].content, a.artifacts, d.generations[g].content.sources.Keys, pending)
    ensures RowsRight(d.generations[g].content, WorkOf(batches, g), o.provider)
    ensures forall t :: t in d.generations[g].content.sources ==> Asked(WorkOf(batches, g), t) || FullyEnriched(d.generations[g].content, t)
  {
    hide Ran, DeclareTxs, Enumerates, WorkOf, DeclaredFor, FullyEnriched, HasGuidance, HasEnrichment, KeysOfSources, GatesMatch;
    var c, work := d.generations[g].content, WorkOf(batches, g);
    forall w | w in work ensures DeclaredFor(c, w, o.provider) {
      assert w in pending;
      WorkIsDeclared(a, d, g, order, pending, w, o);
    }
    forall t | t in c.sources ensures Asked(work, t) || FullyEnriched(c, t) {
      var w := (t, c.sources[t]);
      WorkIsDeclared(a, d, g, order, pending, w, o);
      if !HasGuidance(a.artifacts, c.sources[t]) {
        assert w in pending && w in work;
      }
    }
  }

  lemma NewBatchesAsk(batches: map<BatchId, Batch>, g: GenerationId, parts: seq<seq<Work>>)
    requires BatchesProper(batches)
    requires forall k :: 0 <= k < |parts| ==> parts[k] != []
    ensures BatchesProper(ToolBatches(g, parts) + batches)
  {
  }

  lemma HandedOutKeepsRows(a: Db, d: Db, b: Db, g: GenerationId, order: seq<Work>, pending: seq<Work>, parts: seq<seq<Work>>, o: Tools)
    requires g in a.generations && RowsAgree(d, o.provider)
    requires d.batches == a.batches && g in d.generations && d.generations[g].content.sources == a.generations[g].content.sources
    requires forall x :: x in a.batches && x.generation == g ==> !x.kind.ToolBatch? && !a.batches[x].request.ToolRequest?
    requires Enumerates(order, a.generations[g].content.sources, a.generations[g].content.sources.Keys)
    requires Ran(a, DeclareTxs(a.generations[g].content.sources, a.artifacts, g, order, o), d)
    requires b == d.(batches := ToolBatches(g, parts) + d.batches) && Flatten(parts) == pending
    requires forall k :: 0 <= k < |parts| ==> parts[k] != []
    requires WorkIsExact(d.generations[g].content, a.artifacts, d.generations[g].content.sources.Keys, pending)
    ensures RowsAgree(b, o.provider) && AllProvided(b, g)
  {
    hide Ran, DeclareTxs, Enumerates, Flatten, WorkOf, RowsRight, WorkIsExact, FullyEnriched, ToolBatches, Asked;
    NewBatchesAsk(a.batches, g, parts);
    NoToolRequests(a.batches, g);
    NewWork(a.batches, g, parts);
    assert RowsRight(d.generations[g].content, WorkOf(d.batches, g), o.provider);
    HandedOutIsRight(a, d, b.batches, g, order, pending, o);
    forall h | h in b.generations ensures RowsRight(b.generations[h].content, WorkOf(b.batches, h), o.provider) {
      assert RowsRight(d.generations[h].content, WorkOf(d.batches, h), o.provider);
      if h != g {
        OtherWork(a.batches, g, parts, h);
      }
    }
  }

  lemma NoToolRequests(batches: map<BatchId, Batch>, g: GenerationId)
    requires forall b :: b in batches && b.generation == g ==> !batches[b].request.ToolRequest?
    ensures WorkOf(batches, g) == {}
  {
  }

  /** A successful preparation keeps the rows right and leaves no source unprovided for. */
  lemma PreparationKeepsRows(a: Db, b: Db, g: GenerationId, limits: Limits, o: Tools)
    requires HandedOut(a, b, g, limits, o) && IndexSound(a) && RowsAgree(a, o.provider) && !HasBatch(a.batches, g, ToolBatch)
    ensures RowsAgree(b, o.provider) && AllProvided(b, g)
  {
    hide Ran, Exec, IndexSound, RowsAgree, DeclareTxs, WorkIsExact, Greedy, Flatten, PendingReady, AllHave, ToolBatches, AllProvided;
    var pending, order, parts :| HandsOut(a, b, g, limits, pending, order, parts, o);
    var sources := a.generations[g].content.sources;
    var txs := DeclareTxs(sources, a.artifacts, g, order, o);
    var put := PutBatches(ToolBatches(g, parts));
    var d := MiddleOf(a, txs, put, b);
    assert txs[..|txs|] == txs;
    assert Declares(a, d, g, order, |txs|, o) by { EnumeratesTools(order, sources, sources.Keys); }
    NoWorkYet(a, g);
    assert WorkOf(a.batches, g) == {} by { NoToolRequests(a.batches, g); }
    DeclaringKeepsRows(a, d, g, order, |txs|, o);
    DeclaringWritesRightly(a.generations[g].content, a.artifacts, g, order, |txs|, o);
    CoherentIsRepeatable(txs);
    RunKeepsRow(a, txs, d, g, CapabilityGate);
    PutBatchesOnly(d, ToolBatches(g, parts));
    BatchingFlattens(parts, pending, Bounds(limits.batchSize, limits.maxBytes, limits.size));
    HandedOutKeepsRows(a, d, b, g, order, pending, parts, o);
  }

  lemma {:induction false} MiddleOf(a: Db, txs: seq<Tx>, tx: Tx, b: Db) returns (d: Db)
    requires Ran(a, txs + [tx], b)
    ensures Ran(a, txs, d) && Exec(d, tx) == Ok(b)
    decreases |txs|
  {
    hide Exec;
    if txs == [] {
      assert txs + [tx] == [tx];
      d := a;
    } else {
      assert (txs + [tx])[1..] == txs[1..] + [tx];
      d := MiddleOf(Exec(a, txs[0]).value, txs[1..], tx, b);
    }
  }

  lemma NoWorkYet(a: Db, g: GenerationId)
    requires IndexSound(a) && !HasBatch(a.batches, g, ToolBatch)
    ensures forall x :: x in a.batches && x.generation == g ==> !x.kind.ToolBatch? && !a.batches[x].request.ToolRequest?
  {
    hide GenerationSound;
  }

  // ---------------------------------------------------------------------------------------------
  // Capability reconciliation
  // ---------------------------------------------------------------------------------------------

  predicate CapabilityKey(key: Key) {
    key == CapabilityGate || key == ArtifactKey(HierarchySlot)
  }

  /** Writes that concern the hierarchy of one generation and hand out no tools. */
  ghost predicate AboutHierarchy(txs: seq<Tx>, g: GenerationId) {
    && Coherent(txs)
    && (forall x :: x in txs && (x.RequireDependency? || x.SatisfyDependency?) ==> x.id == g && CapabilityKey(x.key))
    && (forall x :: x in txs && x.PutBatches? ==> BatchesProper(x.batches))
    && (forall x, b :: x in txs && x.PutBatches? && b in x.batches ==> !x.batches[b].request.ToolRequest?)
  }

  lemma WriteKeepsToolWork(a: Db, tx: Tx)
    requires Repeatable(tx) && Exec(a, tx).Ok? && (tx.PutBatches? ==> forall b :: b in tx.batches ==> !tx.batches[b].request.ToolRequest?)
    ensures SameToolWork(a.batches, Exec(a, tx).value.batches)
  {
  }

  lemma SameToolWorkTransitive(x: map<BatchId, Batch>, y: map<BatchId, Batch>, z: map<BatchId, Batch>)
    requires SameToolWork(x, y) && SameToolWork(y, z)
    ensures SameToolWork(x, z)
  {
  }

  lemma {:induction false} RunKeepsToolWork(a: Db, txs: seq<Tx>, b: Db)
    requires Ran(a, txs, b) && forall x :: x in txs ==> Repeatable(x)
    requires forall x, y :: x in txs && x.PutBatches? && y in x.batches ==> !x.batches[y].request.ToolRequest?
    ensures SameToolWork(a.batches, b.batches)
    decreases |txs|
  {
    hide Exec, Repeatable, SameToolWork;
    if txs == [] {
      SameToolWorkItself(a.batches);
    } else {
      var next := Exec(a, txs[0]).value;
      assert txs[0] in txs;
      WriteKeepsToolWork(a, txs[0]);
      RunKeepsToolWork(next, txs[1..], b);
      SameToolWorkTransitive(a.batches, next.batches, b.batches);
    }
  }

  lemma WriteKeepsProper(a: Db, tx: Tx)
    requires Repeatable(tx) && Exec(a, tx).Ok? && BatchesProper(a.batches)
    requires tx.PutBatches? ==> BatchesProper(tx.batches)
    ensures BatchesProper(Exec(a, tx).value.batches)
  {
  }

  lemma {:induction false} RunKeepsProper(a: Db, txs: seq<Tx>, b: Db)
    requires Ran(a, txs, b) && BatchesProper(a.batches)
    requires forall x :: x in txs ==> Repeatable(x) && (x.PutBatches? ==> BatchesProper(x.batches))
    ensures BatchesProper(b.batches)
    decreases |txs|
  {
    hide Exec, Repeatable, BatchesProper;
    if txs != [] {
      WriteKeepsProper(a, txs[0]);
      RunKeepsProper(Exec(a, txs[0]).value, txs[1..], b);
    }
  }

  lemma SameToolWorkItself(x: map<BatchId, Batch>)
    ensures SameToolWork(x, x)
  {
  }

  lemma HierarchyKeepsRows(a: Db, txs: seq<Tx>, b: Db, g: GenerationId, provider: string)
    requires Ran(a, txs, b) && g in a.generations && AboutHierarchy(txs, g) && RowsAgree(a, provider)
    ensures RowsAgree(b, provider)
  {
    hide Ran, Agree, Repeatable, RowsRight, WorkOf, Asked;
    CoherentIsRepeatable(txs);
    RunKeepsProper(a, txs, b);
    RunKeepsToolWork(a, txs, b);
    ListKeepsRows(a, txs, b, g, provider);
  }

  /** Every write with which the hierarchy is asked for, or taken over from a stored one. */
  ghost function AskWrites(c: Content, g: GenerationId, a: Artifact, spec: Fingerprint): set<Tx> {
    {RequireDependency(g, CapabilityGate, OfSources(c.sources)), RequireDependency(g, ArtifactKey(HierarchySlot), spec),
     PutBatches(CapabilityWork(g, c)), AcceptBatch(CapabilityId(g), CapabilityResponse(a.payload, [])),
     AttachArtifact(g, HierarchySlot, a), SatisfyDependency(g, ArtifactKey(HierarchySlot), spec),
     SatisfyDependency(g, CapabilityGate, OfSources(c.sources))}
  }

  lemma AskWritesAgree(c: Content, g: GenerationId, a: Artifact, spec: Fingerprint)
    ensures forall x, y :: x in AskWrites(c, g, a, spec) && y in AskWrites(c, g, a, spec) ==> Agree(x, y)
  {
    hide GuidanceItems;
  }

  lemma AskWritesAre(c: Content, g: GenerationId, a: Artifact, spec: Fingerprint)
    ensures forall x :: x in AskWrites(c, g, a, spec) && (x.RequireDependency? || x.SatisfyDependency?) ==> x.id == g && CapabilityKey(x.key)
    ensures forall x :: x in AskWrites(c, g, a, spec) && x.PutBatches? ==> x.batches == CapabilityWork(g, c)
  {
    hide CapabilityWork;
  }

  lemma AskedAreWrites(c: Content, g: GenerationId, reused: Option<Artifact>, a: Artifact, n: nat)
    requires n <= |AskTxs(c, g, reused)| && (reused.Some? ==> reused.value == a)
    ensures forall x :: x in AskTxs(c, g, reused)[..n] ==> x in AskWrites(c, g, a, OfSpec(HierarchyOf(c)))
  {
    hide HierarchyOf, CapabilityWork;
  }

  lemma AskIsAboutHierarchy(c: Content, g: GenerationId, reused: Option<Artifact>, n: nat)
    requires n <= |AskTxs(c, g, reused)|
    ensures AboutHierarchy(AskTxs(c, g, reused)[..n], g)
  {
    hide HierarchyOf, GuidanceItems, Agree, AskTxs, AskWrites, CapabilityKey;
    var a := if reused.Some? then reused.value else Artifact(HierarchyOf(c), "");
    AskWritesAgree(c, g, a, OfSpec(HierarchyOf(c)));
    AskWritesAre(c, g, a, OfSpec(HierarchyOf(c)));
    AskedAreWrites(c, g, reused, a, n);
  }

  lemma CapabilityWritesAre(c: Content, b: BatchId, tools: set<Tool>, hierarchy: string, proposals: seq<string>, x: Tx)
    requires x in CapabilityTxs(c, b, tools, hierarchy, proposals)
    ensures x.RequireDependency? || x.SatisfyDependency? ==> x.id == b.generation && CapabilityKey(x.key)
    ensures x.PutBatches? ==> x.batches == ReviewBatches(b.generation, proposals)
  {
    hide GuidanceItems, ReviewBatches;
  }

  lemma ReviewsAreProper(g: GenerationId, proposals: seq<string>)
    ensures BatchesProper(ReviewBatches(g, proposals))
    ensures forall b :: b in ReviewBatches(g, proposals) ==> !ReviewBatches(g, proposals)[b].request.ToolRequest?
  {
  }

  lemma CapabilityIsAboutHierarchy(c: Content, b: BatchId, tools: set<Tool>, hierarchy: string, proposals: seq<string>, n: nat)
    requires n <= |CapabilityTxs(c, b, tools, hierarchy, proposals)|
    ensures AboutHierarchy(CapabilityTxs(c, b, tools, hierarchy, proposals)[..n], b.generation)
  {
    hide Agree, CapabilityTxs, ReviewBatches, BatchesProper, CapabilityKey;
    var txs := CapabilityTxs(c, b, tools, hierarchy, proposals);
    CapabilityIsCoherent(c, b, tools, hierarchy, proposals);
    ReviewsAreProper(b.generation, proposals);
    forall x | x in txs[..n]
      ensures x in txs && (x.RequireDependency? || x.SatisfyDependency? ==> x.id == b.generation && CapabilityKey(x.key))
      ensures x.PutBatches? ==> x.batches == ReviewBatches(b.generation, proposals)
    {
      CapabilityWritesAre(c, b, tools, hierarchy, proposals, x);
    }
  }

  lemma AskingKeepsRows(a: Db, b: Db, g: GenerationId, provider: string)
    requires Asking(a, b, g) && RowsAgree(a, provider)
    ensures RowsAgree(b, provider)
  {
    hide Ran, RowsAgree, AskTxs, AboutHierarchy;
    var c := a.generations[g].content;
    var n: nat, r :| n <= |AskTxs(c, g, r)| && Ran(a, AskTxs(c, g, r)[..n], b);
    AskIsAboutHierarchy(c, g, r, n);
    HierarchyKeepsRows(a, AskTxs(c, g, r)[..n], b, g, provider);
  }

  lemma CapabilityCutKeepsRows(a: Db, b: BatchId, response: Response, n: nat, c: Db, provider: string)
    requires CapabilityCut(a, b, response, n, c) && RowsAgree(a, provider)
    ensures RowsAgree(c, provider)
  {
    hide Ran, RowsAgree, CapabilityTxs, AboutHierarchy;
    CapabilityIsAboutHierarchy(a.generations[b.generation].content, b, a.batches[b].request.tools, response.hierarchy, response.proposals, n);
    HierarchyKeepsRows(a, CapabilityTxsFor(a, b, response)[..n], c, b.generation, provider);
  }

  // ---------------------------------------------------------------------------------------------
  // What is complete stays complete
  // ---------------------------------------------------------------------------------------------

  predicate BaseKey(key: Key) {
    key.ArtifactKey? && key.slot.ToolSlot? && key.slot.role != Guidance && key.slot.role != Enriched
  }

  ghost predicate SparesBase(txs: seq<Tx>) {
    Coherent(txs) && forall x :: x in txs && (x.RequireDependency? || x.SatisfyDependency?) ==> !BaseKey(x.key)
  }

  lemma RunKeepsBased(a: Db, txs: seq<Tx>, b: Db, g: GenerationId, t: Tool, o: Tools)
    requires Ran(a, txs, b) && SparesBase(txs) && g in a.generations && Based(a.generations[g].content, t, o)
    ensures g in b.generations && Based(b.generations[g].content, t, o)
  {
    hide Ran, Agree, Repeatable;
    CoherentIsRepeatable(txs);
    RunKeepsRow(a, txs, b, g, CapabilityGate);
    forall key | key in BaseKeys(t) ensures key in a.generations[g].content.requirements && key in b.generations[g].content.requirements && b.generations[g].content.requirements[key] == a.generations[g].content.requirements[key] {
      assert BaseKey(key);
      RunKeepsRow(a, txs, b, g, key);
    }
  }

  lemma SubmissionSparesBase(a: Db, b: BatchId, response: Response, n: nat, o: Tools)
    requires Answers(a, b, response) && n <= |TxsFor(a, b, response, o)| && DistinctWork(a.batches[b].request.items)
    ensures SparesBase(TxsFor(a, b, response, o)[..n])
  {
    hide Agree, SubmitTxs, WorkOf, About;
    var txs := TxsFor(a, b, response, o);
    SubmissionIsCoherent(a.artifacts, b, a.batches[b].request.items, response.answers, o);
    forall x | x in txs[..n] && (x.RequireDependency? || x.SatisfyDependency?) ensures !BaseKey(x.key) {
      assert x in txs;
      SubmissionWrite(a, b, response, o, x);
    }
    assert forall x :: x in txs[..n] ==> x in txs;
  }

  lemma CutKeepsBased(a: Db, b: BatchId, response: Response, n: nat, c: Db, o: Tools, t: Tool)
    requires Cut(a, b, response, n, c, o) && DistinctWork(a.batches[b].request.items)
    requires b.generation in a.generations && Based(a.generations[b.generation].content, t, o)
    ensures b.generation in c.generations && Based(c.generations[b.generation].content, t, o)
  {
    hide Ran, SubmitTxs, SparesBase, Based;
    SubmissionSparesBase(a, b, response, n, o);
    RunKeepsBased(a, TxsFor(a, b, response, o)[..n], c, b.generation, t, o);
  }

  lemma {:induction false} HistoryKeepsBased(plan: Plan, ws: seq<Db>, tries: seq<Attempt>, n: nat, g: GenerationId, o: Tools, t: Tool)
    requires Attempted(plan, ws, tries, o) && n <= |tries| && AllDistinct(ws[0].batches)
    requires (forall b :: b in plan ==> b.generation == g) && g in ws[0].generations && Based(ws[0].generations[g].content, t, o)
    ensures AllDistinct(ws[n].batches) && g in ws[n].generations && Based(ws[n].generations[g].content, t, o)
    decreases n
  {
    hide Cut, Based, DistinctWork;
    if n > 0 {
      HistoryKeepsBased(plan, ws, tries, n - 1, g, o, t);
      var try := tries[n - 1];
      CutAnswers(ws[n - 1], try.batch, plan[try.batch], try.writes, ws[n], o);
      CutKeepsBased(ws[n - 1], try.batch, plan[try.batch], try.writes, ws[n], o, t);
      CutKeepsWork(ws[n - 1], try.batch, plan[try.batch], try.writes, ws[n], o);
    }
  }

  lemma InterruptedKeepsBased(a: Db, plan: Plan, c: Db, g: GenerationId, o: Tools, t: Tool)
    requires Interrupted(a, plan, c, o) && AllDistinct(a.batches)
    requires (forall b :: b in plan ==> b.generation == g) && g in a.generations && Based(a.generations[g].content, t, o)
    ensures g in c.generations && Based(c.generations[g].content, t, o)
  {
    hide Cut, Based, DistinctWork;
    var ws: seq<Db>, tries: seq<Attempt> :| Attempted(plan, ws, tries, o) && ws[0] == a && ws[|tries|] == c;
    HistoryKeepsBased(plan, ws, tries, |tries|, g, o, t);
  }

  lemma BlockSparesBase(artifacts: set<Artifact>, g: GenerationId, t: Tool, k: string, o: Tools, x: Tx)
    requires x in PrepareToolTxs(artifacts, g, t, k, o) && (x.RequireDependency? || x.SatisfyDependency?)
    ensures !BaseKey(x.key)
  {
    hide Reusable, EnrichedOr;
  }

  lemma DeclarationSparesBase(sources: map<Tool, string>, artifacts: set<Artifact>, g: GenerationId, order: seq<Work>, o: Tools)
    requires DistinctWork(order)
    ensures SparesBase(DeclareTxs(sources, artifacts, g, order, o))
  {
    hide Agree, PrepareTxs, PrepareToolTxs, StoredByAll, DistinctWork;
    DeclarationIsCoherent(sources, artifacts, g, order, o);
    var all := DeclareTxs(sources, artifacts, g, order, o);
    forall x | x in all && (x.RequireDependency? || x.SatisfyDependency?) ensures !BaseKey(x.key) {
      if x != all[0] {
        var i := WriteOfTool(artifacts, g, order, o, x);
        BlockSparesBase(StoredByAll(artifacts, order[..i], o), g, order[i].0, order[i].1, o, x);
      }
    }
  }

  lemma HandedOutKeepsBased(a: Db, b: Db, g: GenerationId, limits: Limits, o: Tools, t: Tool)
    requires HandedOut(a, b, g, limits, o) && g in a.generations && Based(a.generations[g].content, t, o)
    ensures g in b.generations && Based(b.generations[g].content, t, o)
  {
    hide Ran, Exec, DeclareTxs, WorkIsExact, Greedy, Batching, PendingReady, AllHave, ToolBatches, Based, SparesBase;
    var pending, order, parts :| HandsOut(a, b, g, limits, pending, order, parts, o);
    var sources := a.generations[g].content.sources;
    var txs := DeclareTxs(sources, a.artifacts, g, order, o);
    var d := MiddleOf(a, txs, PutBatches(ToolBatches(g, parts)), b);
    DeclarationSparesBase(sources, a.artifacts, g, order, o);
    RunKeepsBased(a, txs, d, g, t, o);
    PutBatchesOnly(d, ToolBatches(g, parts));
  }

  lemma HierarchySparesBase(txs: seq<Tx>, g: GenerationId)
    requires AboutHierarchy(txs, g)
    ensures SparesBase(txs)
  {
    hide Agree;
  }

  /** An enriched tool stays enriched while the hierarchy is built. */
  lemma HierarchyKeepsEnriched(a: Db, txs: seq<Tx>, b: Db, g: GenerationId, t: Tool)
    requires Ran(a, txs, b) && g in a.generations && AboutHierarchy(txs, g) && FullyEnriched(a.generations[g].content, t)
    ensures g in b.generations && FullyEnriched(b.generations[g].content, t)
  {
    hide Ran, Agree, FullyEnriched;
    OthersStayEnriched(a, txs, b, g, t);
  }

  // ---------------------------------------------------------------------------------------------
  // What is answered is fulfilled
  // ---------------------------------------------------------------------------------------------

  /** The tool has this guidance for its contract, and the vector of the text that guidance makes. */
  predicate GuidedBy(c: Content, item: Work, text: string, o: Tools) {
    && ToolSlot(Guidance, item.0) in c.attached && ToolSlot(Enriched, item.0) in c.attached
    && c.attached[ToolSlot(Guidance, item.0)] == Artifact(GuidanceSpec(item.1), text)
    && c.attached[ToolSlot(Enriched, item.0)].spec == EmbeddingSpec(o.provider, o.enrichedText(item.0, text))
  }

  lemma VectorHasSpec(artifacts: set<Artifact>, t: Tool, guidance: string, o: Tools)
    ensures EnrichedOr(artifacts, t, guidance, o).spec == EmbeddingSpec(o.provider, o.enrichedText(t, guidance))
  {
  }

  lemma ItemDone(d: Db, g: GenerationId, item: Work, guidance: map<Tool, string>, artifacts: set<Artifact>, o: Tools)
    requires g in d.generations && forall x :: x in ItemTxs(g, item, guidance, artifacts, o) ==> Done(d, x)
    ensures FullyEnriched(d.generations[g].content, item.0)
    ensures item.0 in guidance ==> GuidedBy(d.generations[g].content, item, guidance[item.0], o)
  {
    hide EnrichedOr, EnrichedSpec;
    if item.0 in guidance {
      VectorHasSpec(artifacts, item.0, guidance[item.0], o);
    }
    var txs, t := ItemTxs(g, item, guidance, artifacts, o), item.0;
    assert txs[2].SatisfyDependency? && txs[2].id == g && txs[2].key == ArtifactKey(ToolSlot(Guidance, t));
    assert txs[6].SatisfyDependency? && txs[6].id == g && txs[6].key == ArtifactKey(ToolSlot(Enriched, t));
    assert txs[7].SatisfyDependency? && txs[7].id == g && txs[7].key == EnrichedGate(t);
    assert Done(d, txs[2]) && Done(d, txs[6]) && Done(d, txs[7]);
    assert txs[1].AttachArtifact? && txs[1].id == g && txs[1].slot == ToolSlot(Guidance, t);
    assert txs[5].AttachArtifact? && txs[5].id == g && txs[5].slot == ToolSlot(Enriched, t);
    assert Done(d, txs[1]) && Done(d, txs[5]);
  }

  lemma {:induction false} ItemIsPart(g: GenerationId, items: seq<Work>, guidance: map<Tool, string>, artifacts: set<Artifact>, o: Tools, i: nat, x: Tx)
    requires i < |items| && x in ItemTxs(g, items[i], guidance, artifacts, o)
    ensures x in ItemsTxs(g, items, guidance, artifacts, o)
    decreases |items|
  {
    hide ItemTxs;
    if i < |items| - 1 {
      ItemIsPart(g, items[..|items| - 1], guidance, artifacts, o, i, x);
    }
  }

  /** A submission that got through has enriched every tool of its batch. */
  lemma WholeSubmissionEnriches(a: Db, b: BatchId, response: Response, c: Db, o: Tools, i: nat)
    requires Answers(a, b, response) && Ran(a, TxsFor(a, b, response, o), c) && b.generation in a.generations
    requires DistinctWork(a.batches[b].request.items) && i < |a.batches[b].request.items|
    ensures b.generation in c.generations && FullyEnriched(c.generations[b.generation].content, a.batches[b].request.items[i].0)
    ensures var item := a.batches[b].request.items[i];
            item.0 in Guidances(response.answers) ==> GuidedBy(c.generations[b.generation].content, item, Guidances(response.answers)[item.0], o)
  {
    hide Ran, Exec, Agree, Repeatable, ItemTxs, FullyEnriched, Guidances, Done, GuidedBy;
    var txs, items, g := TxsFor(a, b, response, o), a.batches[b].request.items, b.generation;
    SubmissionIsCoherent(a.artifacts, b, items, response.answers, o);
    assert [] + txs == txs;
    RanIsDone(a, txs, c, []);
    CoherentIsRepeatable(txs);
    RunKeepsRow(a, txs, c, g, CapabilityGate);
    forall x | x in ItemTxs(g, items[i], Guidances(response.answers), a.artifacts, o) ensures Done(c, x) {
      ItemIsPart(g, items, Guidances(response.answers), a.artifacts, o, i, x);
    }
    ItemDone(c, g, items[i], Guidances(response.answers), a.artifacts, o);
  }

  /**
   After a submission that got through, every tool that was answered has attached what the agent said about
   it, for the contract that was asked about, and the vector of the text that this makes.
   */
  lemma AnswersAreAttached(a: Db, b: BatchId, response: Response, c: Db, o: Tools, k: nat)
    requires Answers(a, b, response) && Ran(a, TxsFor(a, b, response, o), c) && b.generation in a.generations
    requires DistinctWork(a.batches[b].request.items) && AnswersMatch(a.batches[b].request.items, response.answers) && k < |response.answers|
    ensures b.generation in c.generations
    ensures exists i :: 0 <= i < |a.batches[b].request.items| && a.batches[b].request.items[i].0 == response.answers[k].tool
                        && GuidedBy(c.generations[b.generation].content, a.batches[b].request.items[i], response.answers[k].guidance, o)
  {
    hide Ran, SubmitTxs, FullyEnriched, GuidedBy, DistinctWork, Guidances, Purposeful;
    var items, t := a.batches[b].request.items, response.answers[k].tool;
    GuidancesMean(response.answers, k);
    assert t in AnsweredTools(response.answers) && t in WorkTools(items);
    var i :| 0 <= i < |items| && items[i].0 == t;
    WholeSubmissionEnriches(a, b, response, c, o, i);
  }

  /** A submission leaves the tools of other batches, and those of none, enriched. */
  lemma SubmissionKeepsEnriched(a: Db, b: BatchId, response: Response, n: nat, c: Db, o: Tools, t: Tool)
    requires Cut(a, b, response, n, c, o) && DistinctWork(a.batches[b].request.items) && b.generation in a.generations
    requires FullyEnriched(a.generations[b.generation].content, t) && t !in WorkTools(a.batches[b].request.items)
    ensures b.generation in c.generations && FullyEnriched(c.generations[b.generation].content, t)
  {
    hide Ran, Agree, SubmitTxs, FullyEnriched, About;
    var txs, items := TxsFor(a, b, response, o), a.batches[b].request.items;
    SubmissionIsCoherent(a.artifacts, b, items, response.answers, o);
    assert forall x :: x in txs[..n] ==> x in txs;
    forall x, key | x in txs[..n] && key in EnrichmentKeys(t) ensures !Sets(x, b.generation, key) {
      WriteOfSubmission(a.artifacts, b, items, response.answers, o, x);
      if x.RequireDependency? || x.SatisfyDependency? {
        var u :| u in WorkTools(items) && About(x, b.generation, u);
        AboutKeys(x, b.generation, u);
      }
    }
    OthersStayEnriched(a, txs[..n], c, b.generation, t);
  }

  /** The row is fulfilled as expected. */
  predicate Fulfilled(c: Content, key: Key) {
    key in c.requirements && c.requirements[key].complete && c.requirements[key].actual == Some(c.requirements[key].expected)
  }

  /** The gate and the hierarchy are declared for the sources and guidance of the generation. */
  predicate HierarchyDeclared(c: Content) {
    && CapabilityGate in c.requirements && c.requirements[CapabilityGate].expected == OfSources(c.sources)
    && ArtifactKey(HierarchySlot) in c.requirements && c.requirements[ArtifactKey(HierarchySlot)].expected == OfSpec(HierarchyOf(c))
  }

  /** Handing out the capability batch declares both; a stored hierarchy fulfils them at once. */
  lemma AskDeclares(a: Db, b: Db, g: GenerationId, reused: Option<Artifact>)
    requires g in a.generations && Ran(a, AskTxs(a.generations[g].content, g, reused), b)
    ensures g in b.generations && SameBase(a.generations[g].content, b.generations[g].content)
    ensures reused.None? ==> HierarchyDeclared(b.generations[g].content)
    ensures reused.Some? ==> Fulfilled(b.generations[g].content, CapabilityGate) && Fulfilled(b.generations[g].content, ArtifactKey(HierarchySlot))
  {
    hide Ran, Exec, Agree, Repeatable, HierarchyOf, AboutHierarchy, AskTxs;
    var c := a.generations[g].content;
    var txs := AskTxs(c, g, reused);
    AskShape(c, g, reused);
    assert txs[..|txs|] == txs && [] + txs == txs;
    AskIsAboutHierarchy(c, g, reused, |txs|);
    AboutIsCoherent(txs, g);
    RanIsDone(a, txs, b, []);
    CoherentIsRepeatable(txs);
    RunKeepsRow(a, txs, b, g, CapabilityGate);
    assert Done(b, txs[0]) && Done(b, txs[1]);
    if reused.Some? {
      assert Done(b, txs[5]) && Done(b, txs[6]);
    } else {
      AskKeepsGuidance(a, txs, b, g);
    }
  }

  lemma AskShape(c: Content, g: GenerationId, reused: Option<Artifact>)
    ensures var txs := AskTxs(c, g, reused);
            && |txs| == (if reused.Some? then 7 else 3)
            && txs[0] == RequireDependency(g, CapabilityGate, OfSources(c.sources))
            && txs[1] == RequireDependency(g, ArtifactKey(HierarchySlot), OfSpec(HierarchyOf(c)))
            && (reused.Some? ==>
                  && txs[5] == SatisfyDependency(g, ArtifactKey(HierarchySlot), OfSpec(HierarchyOf(c)))
                  && txs[6] == SatisfyDependency(g, CapabilityGate, OfSources(c.sources)))
  {
    hide HierarchyOf;
  }

  lemma AboutIsCoherent(txs: seq<Tx>, g: GenerationId)
    requires AboutHierarchy(txs, g)
    ensures Coherent(txs)
  {
  }

  lemma AskKeepsGuidance(a: Db, txs: seq<Tx>, b: Db, g: GenerationId)
    requires g in a.generations && txs == AskTxs(a.generations[g].content, g, None) && Ran(a, txs, b) && g in b.generations
    requires SameBase(a.generations[g].content, b.generations[g].content)
    ensures HierarchyOf(b.generations[g].content) == HierarchyOf(a.generations[g].content)
  {
    hide Ran, GuidanceItems;
    RanKeepsGuidance(a, txs, b, g, a.generations[g].content.sources.Keys);
  }

  /** A capability submission that got through fulfils what was declared for it. */
  lemma WholeCapabilityFulfils(a: Db, b: BatchId, response: Response, c: Db)
    requires CapabilityCut(a, b, response, 6, c) && HierarchyDeclared(a.generations[b.generation].content)
    requires a.batches[b].request.tools == a.generations[b.generation].content.sources.Keys
    ensures b.generation in c.generations && SameBase(a.generations[b.generation].content, c.generations[b.generation].content)
    ensures Fulfilled(c.generations[b.generation].content, CapabilityGate)
    ensures Fulfilled(c.generations[b.generation].content, ArtifactKey(HierarchySlot))
    ensures var attached := c.generations[b.generation].content.attached;
            HierarchySlot in attached && attached[HierarchySlot] == Artifact(HierarchyOf(a.generations[b.generation].content), response.hierarchy)
  {
    hide Ran, Exec, Agree, Repeatable, HierarchyOf, AboutHierarchy, CapabilityTxs, CapabilityTxsFor;
    var g, content := b.generation, a.generations[b.generation].content;
    var txs := CapabilityTxsFor(a, b, response);
    assert txs[..6] == txs && [] + txs == txs;
    CapabilityEnds(a, b, response);
    CapabilityIsAboutHierarchy(content, b, a.batches[b].request.tools, response.hierarchy, response.proposals, 6);
    AboutIsCoherent(txs, g);
    RanIsDone(a, txs, c, []);
    CoherentIsRepeatable(txs);
    RunKeepsRow(a, txs, c, g, CapabilityGate);
    RunKeepsRow(a, txs, c, g, ArtifactKey(HierarchySlot));
    CapabilityEnds(a, b, response);
    assert Done(c, txs[3]) && Done(c, txs[4]) && Done(c, txs[5]);
  }

  /** A capability submission that got through has every proposal handed out for review, and no other new work. */
  lemma ProposalsAreHandedOut(a: Db, b: BatchId, response: Response, c: Db)
    requires CapabilityCut(a, b, response, 6, c)
    ensures forall i :: 0 <= i < |response.proposals| ==>
              var x := BatchId(b.generation, ReviewBatch, Review(i, response.proposals[i]));
              x in c.batches && c.batches[x].request == ReviewRequest(response.proposals[i]) && !c.batches[x].required
    ensures forall x :: x in c.batches && x !in a.batches ==>
              && x.generation == b.generation && x.kind.ReviewBatch? && c.batches[x].request.ReviewRequest?
              && c.batches[x].request.proposal in response.proposals && c.batches[x].accepted.None?
  {
    hide Ran, Exec, Agree, Repeatable, CapabilityTxsFor;
    var txs, reviews := CapabilityTxsFor(a, b, response), ReviewBatches(b.generation, response.proposals);
    CapabilityLength(a, b, response);
    assert txs[..6] == txs == [txs[0], PutBatches(reviews)] + txs[2..];
    var d := MiddleOfTwo(a, txs[0], PutBatches(reviews), txs[2..], c);
    AcceptBatchesOnly(a, b, response);
    PutBatchesOnly(d, reviews);
    RestAddsNone(a, b, response);
    RanKeepsBatches(Exec(d, PutBatches(reviews)).value, txs[2..], c);
    PutBatchesAgree(d, reviews);
    forall i | 0 <= i < |response.proposals|
      ensures var x := BatchId(b.generation, ReviewBatch, Review(i, response.proposals[i]));
              x in c.batches && c.batches[x].request == ReviewRequest(response.proposals[i]) && !c.batches[x].required
    {
      var x := BatchId(b.generation, ReviewBatch, Review(i, response.proposals[i]));
      assert x in reviews && reviews[x] == Batch(false, ReviewRequest(response.proposals[i]), None);
      assert x in c.batches && c.batches[x].(accepted := None) == reviews[x];
    }
  }

  lemma PutBatchesAgree(db: Db, batches: map<BatchId, Batch>)
    requires Exec(db, PutBatches(batches)).Ok?
    ensures forall b :: b in batches ==> (batches + db.batches)[b].(accepted := None) == batches[b].(accepted := None)
  {
  }

  lemma MiddleOfTwo(a: Db, x: Tx, y: Tx, rest: seq<Tx>, c: Db) returns (d: Db)
    requires Ran(a, [x, y] + rest, c)
    ensures Exec(a, x) == Ok(d) && Exec(d, y).Ok? && Ran(Exec(d, y).value, rest, c)
  {
    hide Exec;
    assert ([x, y] + rest)[1..] == [y] + rest && ([y] + rest)[1..] == rest;
    d := Exec(a, x).value;
    assert Ran(d, [y] + rest, c);
  }

  lemma AcceptBatchesOnly(a: Db, b: BatchId, response: Response)
    requires Exec(a, AcceptBatch(b, response)).Ok?
    ensures Exec(a, AcceptBatch(b, response)).value.batches.Keys == a.batches.Keys
  {
  }

  lemma RestAddsNone(a: Db, b: BatchId, response: Response)
    requires Reconciles(a, b, response, true) && b.generation in a.generations
    ensures forall x :: x in CapabilityTxsFor(a, b, response)[2..] ==> !x.PutBatches? && !x.AcceptBatch?
  {
    hide GuidanceItems, ReviewBatches;
  }

  lemma CapabilityEnds(a: Db, b: BatchId, response: Response)
    requires Reconciles(a, b, response, true) && b.generation in a.generations
    requires a.batches[b].request.tools == a.generations[b.generation].content.sources.Keys
    ensures var txs, content := CapabilityTxsFor(a, b, response), a.generations[b.generation].content;
            && txs == CapabilityTxs(content, b, a.batches[b].request.tools, response.hierarchy, response.proposals)
            && txs[3] == AttachArtifact(b.generation, HierarchySlot, Artifact(HierarchyOf(content), response.hierarchy))
            && txs[4] == SatisfyDependency(b.generation, ArtifactKey(HierarchySlot), OfSpec(HierarchyOf(content)))
            && txs[5] == SatisfyDependency(b.generation, CapabilityGate, OfSources(content.sources))
            && forall x :: x in txs ==> !x.RequireDependency?
  {
    hide GuidanceItems;
  }

  // ---------------------------------------------------------------------------------------------
  // Promotion
  // ---------------------------------------------------------------------------------------------

  /** Everything that the generation requires is fulfilled as expected. */
  lemma AllRequirementsReady(c: Content, o: Tools)
    requires ArtifactsMatch(c) && KeysOfSources(c) && GatesMatch(c)
    requires forall t :: t in c.sources ==> Based(c, t, o) && FullyEnriched(c, t)
    requires CapabilityGate in c.requirements ==> Fulfilled(c, CapabilityGate)
    requires ArtifactKey(HierarchySlot) in c.requirements ==> Fulfilled(c, ArtifactKey(HierarchySlot))
    ensures RequirementsReady(c)
  {
    forall key | key in c.requirements ensures c.requirements[key].complete && c.requirements[key].actual == Some(c.requirements[key].expected) {
      match key
      case EnrichedGate(t) =>
        assert KeyOf(key, t);
        assert key in EnrichmentKeys(t);
        assert Complete(c, key);
      case CapabilityGate =>
      case ArtifactKey(slot) =>
        if slot.ToolSlot? {
          ToolRequirementReady(c, slot, o);
        }
    }
  }

  lemma ToolRequirementReady(c: Content, slot: Slot, o: Tools)
    requires ArtifactsMatch(c) && KeysOfSources(c) && slot.ToolSlot? && ArtifactKey(slot) in c.requirements
    requires forall t :: t in c.sources ==> Based(c, t, o) && FullyEnriched(c, t)
    ensures Fulfilled(c, ArtifactKey(slot))
  {
    var key := ArtifactKey(slot);
    assert KeyOf(key, slot.tool);
    assert slot == ToolSlot(slot.role, slot.tool);
    match slot.role
    case Guidance => assert key in EnrichmentKeys(slot.tool);
    case Enriched => assert key in EnrichmentKeys(slot.tool);
    case _ => assert key in BaseKeys(slot.tool);
  }

  /** The members are ready exactly if every one that was ever declared is a source. */
  lemma MembersReadyIff(c: Content, o: Tools)
    requires forall t :: t in c.sources ==> Based(c, t, o)
    ensures MembersReady(c) <==> c.members.Keys <= c.sources.Keys
  {
  }

  lemma SoundBatches(db: Db, g: GenerationId)
    requires IndexSound(db)
    ensures AllDistinct(db.batches)
    ensures HasBatch(db.batches, g, ToolBatch) ==>
              exists b :: b in db.batches && b.generation == g && b.kind.ToolBatch? && db.batches[b].request.ToolRequest?
  {
    hide GenerationSound;
  }

  /** What a preparation of tool batches, or a repair, may have done when it stops. */
  ghost predicate Prepares(a: Db, b: Db, g: GenerationId, succeeded: bool, limits: Limits, o: Tools) {
    if HasBatch(a.batches, g, ToolBatch)
    then b.batches == a.batches && (b == a || Interrupted(a, AcceptedTools(b.batches, g), b, o))
    else if succeeded then HandedOut(a, b, g, limits, o)
    else b == a || Declaring(a, b, g, o)
  }

  lemma AskedByBatch(db: Db, g: GenerationId, provider: string)
    requires RowsAgree(db, provider) && g in db.generations
    requires exists b :: b in db.batches && b.generation == g && b.kind.ToolBatch? && db.batches[b].request.ToolRequest?
    ensures AllProvided(db, g)
  {
    var b :| b in db.batches && b.generation == g && b.kind.ToolBatch? && db.batches[b].request.ToolRequest?;
    WorkItem(db.batches, b, 0);
    assert RowsRight(db.generations[g].content, WorkOf(db.batches, g), provider);
  }

  /** Wherever a preparation stops the rows are right, and when it succeeds no source is left unprovided for. */
  lemma PreparesKeepsRows(a: Db, b: Db, g: GenerationId, succeeded: bool, limits: Limits, o: Tools)
    requires IndexSound(a) && g in a.generations && g in b.generations && RowsAgree(a, o.provider) && Prepares(a, b, g, succeeded, limits, o)
    ensures RowsAgree(b, o.provider) && (succeeded ==> AllProvided(b, g))
  {
    hide IndexSound, RowsAgree, HandedOut, Interrupted, AllProvided, Declares, AllDistinct;
    SoundBatches(a, g);
    if HasBatch(a.batches, g, ToolBatch) {
      if b != a {
        InterruptedKeepsRows(a, AcceptedTools(b.batches, g), b, g, o);
      }
      AskedByBatch(b, g, o.provider);
    } else if succeeded {
      PreparationKeepsRows(a, b, g, limits, o);
    } else if b != a {
      var order, n :| Declares(a, b, g, order, n, o);
      NoWorkYet(a, g);
      NoToolRequests(a.batches, g);
      DeclaringKeepsRows(a, b, g, order, n, o);
    }
  }

  lemma PreparesKeepsBased(a: Db, b: Db, g: GenerationId, limits: Limits, o: Tools, t: Tool)
    requires IndexSound(a) && g in a.generations && Based(a.generations[g].content, t, o) && Prepares(a, b, g, true, limits, o)
    ensures g in b.generations && Based(b.generations[g].content, t, o)
  {
    hide IndexSound, HandedOut, Interrupted, Based, AllDistinct;
    SoundBatches(a, g);
    if HasBatch(a.batches, g, ToolBatch) {
      if b != a {
        InterruptedKeepsBased(a, AcceptedTools(b.batches, g), b, g, o, t);
      }
    } else {
      HandedOutKeepsBased(a, b, g, limits, o, t);
    }
  }

  /** What a preparation of the capability batch, or its repair, may have done when it stops. */
  lemma ReconcilingKeepsRows(a: Db, b: Db, g: GenerationId, provider: string)
    requires RowsAgree(a, provider) && (b == a || Asking(a, b, g) || Recapping(a, b, g))
    ensures RowsAgree(b, provider)
  {
    hide RowsAgree, Asking, CapabilityCut;
    if b != a {
      if Asking(a, b, g) {
        AskingKeepsRows(a, b, g, provider);
      } else {
        var response, n :| CapabilityCut(a, CapabilityId(g), response, n, b);
        CapabilityCutKeepsRows(a, CapabilityId(g), response, n, b, provider);
      }
    }
  }

  lemma SubmittingKeepsRows(a: Db, b: BatchId, response: Response, n: nat, c: Db, o: Tools)
    requires IndexSound(a) && Cut(a, b, response, n, c, o) && RowsAgree(a, o.provider)
    ensures RowsAgree(c, o.provider)
  {
    hide IndexSound, RowsAgree, Ran, SubmitTxs, DistinctWork;
    SoundBatches(a, b.generation);
    BatchKnown(a, b);
    CutKeepsRows(a, b, response, n, c, o);
  }
}
