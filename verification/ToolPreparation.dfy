/**
 Preparing tool batches: requirements are declared, stored guidance is reused, and the rest of the work is
 handed out; or the effects of accepted batches are repaired.
 */
module ToolPreparation {
  import opened Common
  import opened CatalogModel
  import opened CatalogTables
  import opened GreedyBatches
  import opened IndexInvariant
  import opened IndexBuild
  import opened IndexEnrichment
  import opened Submission
  import opened Replay

  /** The responses that tool batches of a generation have been given. */
  function AcceptedTools(batches: map<BatchId, Batch>, g: GenerationId): Plan {
    map b | b in batches && b.generation == g && b.kind.ToolBatch? && batches[b].accepted.Some? :: batches[b].accepted.value
  }

  /**
   Submits every accepted tool batch of a generation again, for its effects. Wherever it stops, it has made
   attempts at these submissions and nothing else; and if it succeeds, then however these submissions had
   been cut off before, the state is that in which they end when nothing interrupts them.
   */
  method RepairToolBatches(cat: Catalog, g: GenerationId, o: Tools) returns (e: Option<Error>)
    requires Building(cat.Tables(), g) && Faithful(o)
    modifies cat
    ensures IndexSound(cat.Tables()) && SameSources(old(cat.Tables()), cat.Tables()) && cat.batches == old(cat.batches)
    ensures Interrupted(old(cat.Tables()), AcceptedTools(cat.batches, g), cat.Tables(), o)
    ensures e.None? ==> Completed(old(cat.Tables()), AcceptedTools(cat.batches, g), cat.Tables(), o)
    ensures e.None? ==> RepairedFrom(old(cat.Tables()), AcceptedTools(cat.batches, g), cat.Tables(), o)
  {
    hide IndexSound, SameSources, Cut, HasWhole, Whole, SubmitTxs, Interrupted, Completed, RepairedFrom, VectorsExist;
    SameSourcesReflexive(cat.Tables());
    var accepted := AcceptedTools(cat.batches, g);
    var todo := accepted.Keys;
    ghost var db0, ws, tries := cat.Tables(), [cat.Tables()], [];
    while todo != {}
      invariant todo <= accepted.Keys && cat.batches == old(cat.batches)
      invariant IndexSound(cat.Tables()) && SameSources(db0, cat.Tables()) && Building(cat.Tables(), g)
      invariant Attempted(accepted, ws, tries, o) && ws[0] == db0 && ws[|tries|] == cat.Tables()
      invariant forall b :: b in accepted.Keys - todo ==> HasWhole(ws, tries, b)
      decreases |todo|
    {
      var b :| b in todo;
      ghost var db, n := cat.Tables(), 0;
      e, n := SubmitToolBatch(cat, b, accepted[b], o);
      SameSourcesTransitive(db0, db, cat.Tables());
      SameBuilding(db, cat.Tables(), g);
      if Answers(db, b, accepted[b]) {
        RepeatKeepsBatches(db, b, accepted[b], n, cat.Tables(), o);
        OneMoreAttempt(accepted, ws, tries, b, n, cat.Tables(), o);
        if e.None? {
          WholeAttempt(db, b, accepted[b], n, o);
        }
        ws, tries := ws + [cat.Tables()], tries + [Attempt(b, n)];
      }
      if e.Some? {
        HistoryInterrupts(db0, accepted, ws, tries, cat.Tables(), o);
        return;
      }
      todo := todo - {b};
    }
    e := None;
    HistoryInterrupts(db0, accepted, ws, tries, cat.Tables(), o);
    RepairIsRight(db0, g, accepted, cat.Tables(), o);
  }

  /** Every interrupted history that led to one state ends, when it is completed, in the other. */
  ghost predicate RepairedFrom(mid: Db, plan: Plan, repaired: Db, o: Tools) {
    forall a, c :: Interrupted(a, plan, mid, o) && Provided(a, plan, o) && Completed(a, plan, c, o) ==> repaired == c
  }

  lemma RepairIsRight(mid: Db, g: GenerationId, plan: Plan, repaired: Db, o: Tools)
    requires Faithful(o) && IndexSound(mid) && (forall b :: b in plan ==> b.generation == g) && Completed(mid, plan, repaired, o)
    ensures RepairedFrom(mid, plan, repaired, o)
  {
    hide IndexSound, Interrupted, Completed, Provided;
    forall a, c | Interrupted(a, plan, mid, o) && Provided(a, plan, o) && Completed(a, plan, c, o) ensures repaired == c {
      RepairReachesEnd(a, g, plan, mid, repaired, c, o);
    }
  }

  lemma WholeAttempt(db: Db, b: BatchId, response: Response, n: nat, o: Tools)
    requires Answers(db, b, response) && n == |TxsFor(db, b, response, o)|
    ensures Whole(db, Attempt(b, n))
  {
  }

  lemma SameBuilding(a: Db, b: Db, g: GenerationId)
    requires Building(a, g) && IndexSound(b) && SameSources(a, b)
    ensures Building(b, g)
  {
    hide IndexSound;
  }

  // ---------------------------------------------------------------------------------------------
  // Preparing tool batches
  // ---------------------------------------------------------------------------------------------

  /** Work that is ready to be handed out: each tool is a source whose gate is declared, and comes once. */
  ghost predicate PendingReady(c: Content, pending: seq<Work>) {
    && (forall i :: 0 <= i < |pending| ==> pending[i].0 in c.sources && EnrichedGate(pending[i].0) in c.requirements)
    && (forall i, j :: 0 <= i < j < |pending| ==> pending[i].0 != pending[j].0)
  }

  lemma PendingKept(c: Content, d: Content, pending: seq<Work>)
    requires PendingReady(c, pending) && c.sources == d.sources && c.requirements.Keys <= d.requirements.Keys
    ensures PendingReady(d, pending)
  {
  }

  lemma PendingGrows(c: Content, pending: seq<Work>, t: Tool, contract: string)
    requires PendingReady(c, pending) && t in c.sources && EnrichedGate(t) in c.requirements
    requires forall i :: 0 <= i < |pending| ==> pending[i].0 != t
    ensures PendingReady(c, pending + [(t, contract)])
  {
  }

  /** Content of the generation while its tools are gone through: nothing but rows for them is added. */
  ghost predicate Preparing(c: Content, d: Content) {
    && d.sources == c.sources && AllHave(d, Description)
    && c.requirements.Keys <= d.requirements.Keys
  }

  /** Guidance for a contract is stored, from whatever generation. */
  predicate HasGuidance(artifacts: set<Artifact>, contract: string) {
    exists a :: a in artifacts && a.spec == GuidanceSpec(contract)
  }

  /** All artifacts that were added are vectors. */
  ghost predicate AddedVectors(before: set<Artifact>, after: set<Artifact>) {
    before <= after && forall a :: a in after - before ==> a.spec.EmbeddingSpec?
  }

  lemma AddedTransitive(a: set<Artifact>, b: set<Artifact>, c: set<Artifact>)
    requires AddedVectors(a, b) && AddedVectors(b, c)
    ensures AddedVectors(a, c)
  {
  }

  lemma VectorsAreNoGuidance(before: set<Artifact>, after: set<Artifact>, contract: string)
    requires AddedVectors(before, after)
    ensures HasGuidance(after, contract) <==> HasGuidance(before, contract)
  {
  }

  ghost predicate HasEnrichment(c: Content, t: Tool) {
    {ToolSlot(Guidance, t), ToolSlot(Enriched, t)} <= c.attached.Keys
  }

  /** The writes that attach guidance which is stored already, and everything that follows from it. */
  function ReuseTxs(artifacts: set<Artifact>, g: GenerationId, t: Tool, contract: string, found: Artifact, o: Tools): (txs: seq<Tx>)
    ensures |txs| == 7
  {
    FulfillTxs(g, ToolSlot(Guidance, t), GuidanceSpec(contract), found)
    + EnrichTxs(g, t, contract, found.payload, EnrichedOr(artifacts, t, found.payload, o), o)
  }

  /** The writes that prepare one tool: guidance and gate are declared, and fulfilled if guidance is stored. */
  function PrepareToolTxs(artifacts: set<Artifact>, g: GenerationId, t: Tool, contract: string, o: Tools): seq<Tx> {
    var found := Reusable(artifacts, GuidanceSpec(contract), o.choose);
    [RequireDependency(g, ArtifactKey(ToolSlot(Guidance, t)), OfSpec(GuidanceSpec(contract))),
     RequireDependency(g, EnrichedGate(t), OfGate(o.provider, contract))]
    + (if found.Some? then ReuseTxs(artifacts, g, t, contract, found.value, o) else [])
  }

  /** The artifacts after a tool was prepared. */
  function StoredBy(artifacts: set<Artifact>, t: Tool, contract: string, o: Tools): set<Artifact> {
    var found := Reusable(artifacts, GuidanceSpec(contract), o.choose);
    if found.Some? then artifacts + {EnrichedOr(artifacts, t, found.value.payload, o)} else artifacts
  }

  /** Declares the requirements of one tool, and fulfils them if guidance for its contract is stored. */
  method PrepareTool(cat: Catalog, g: GenerationId, t: Tool, contract: string, o: Tools) returns (e: Option<Error>, handOut: bool, ghost n: nat)
    requires Building(cat.Tables(), g) && Chooses(o.choose)
    requires t in cat.generations[g].content.sources && AllHave(cat.generations[g].content, Description)
    modifies cat
    ensures Building(cat.Tables(), g) && OnlyContent(old(cat.Tables()), cat.Tables(), g)
    ensures Preparing(old(cat.generations[g].content), cat.generations[g].content)
    ensures old(cat.generations[g].content.attached.Keys) <= cat.generations[g].content.attached.Keys
    ensures AddedVectors(old(cat.artifacts), cat.artifacts)
    ensures var txs := PrepareToolTxs(old(cat.artifacts), g, t, contract, o);
            n <= |txs| && Ran(old(cat.Tables()), txs[..n], cat.Tables()) && (e.None? ==> n == |txs|)
    ensures e.None? ==>
              && (handOut <==> !HasGuidance(old(cat.artifacts), contract))
              && EnrichedGate(t) in cat.generations[g].content.requirements
              && (!handOut ==> HasEnrichment(cat.generations[g].content, t))
              && cat.artifacts == StoredBy(old(cat.artifacts), t, contract, o)
  {
    hide IndexSound, Exec, Ran, RowsOnly, EnrichedOr, ReuseTxs, Reusable;
    var slot, spec := ToolSlot(Guidance, t), GuidanceSpec(contract);
    ghost var db0, txs, m := cat.Tables(), PrepareToolTxs(cat.artifacts, g, t, contract, o), 0;
    NothingRan(db0, txs);
    handOut, n := false, 0;
    e := RequireIn(cat, g, ArtifactKey(slot), OfSpec(spec));
    if e.Some? { return; }
    ghost var db1 := cat.Tables();
    RanNext(db0, txs, 0, db0, db1);
    n := 1;
    e := RequireIn(cat, g, EnrichedGate(t), OfGate(o.provider, contract));
    if e.Some? { return; }
    ghost var db2 := cat.Tables();
    RanNext(db0, txs, 1, db1, db2);
    n := 2;
    var found := cat.FindReusableArtifact(spec, o.choose);
    if found.None? {
      return None, true, 2;
    }
    e, m := ReuseGuidance(cat, g, t, contract, found.value, o);
    assert txs[2..2 + m] == ReuseTxs(db0.artifacts, g, t, contract, found.value, o)[..m];
    RanMore(db0, txs, 2, m, db2, cat.Tables());
    n := 2 + m;
  }

  /** Attaches guidance that is stored for the contract, and everything that follows from it. */
  method ReuseGuidance(cat: Catalog, g: GenerationId, t: Tool, contract: string, found: Artifact, o: Tools) returns (e: Option<Error>, ghost n: nat)
    requires Building(cat.Tables(), g) && MayAttach(cat.generations[g].content, ToolSlot(Guidance, t))
    modifies cat
    ensures Building(cat.Tables(), g) && OnlyContent(old(cat.Tables()), cat.Tables(), g)
    ensures Grew(old(cat.generations[g].content), cat.generations[g].content, {ToolSlot(Guidance, t), ToolSlot(Enriched, t)})
    ensures AddedVectors(old(cat.artifacts), cat.artifacts)
    ensures n <= 7 && Ran(old(cat.Tables()), ReuseTxs(old(cat.artifacts), g, t, contract, found, o)[..n], cat.Tables())
    ensures e.None? ==>
              && n == 7 && HasEnrichment(cat.generations[g].content, t)
              && cat.artifacts == old(cat.artifacts) + {EnrichedOr(old(cat.artifacts), t, found.payload, o)}
  {
    hide IndexSound, Exec, Ran, RowsOnly, FulfillTxs, EnrichTxs;
    ghost var db0, m, a := cat.Tables(), 0, found;
    ghost var vector := EnrichedOr(cat.artifacts, t, found.payload, o);
    ghost var first := FulfillTxs(g, ToolSlot(Guidance, t), GuidanceSpec(contract), found);
    ghost var rest := EnrichTxs(g, t, contract, found.payload, vector, o);
    assert |first| == 2 by { FulfillLength(g, ToolSlot(Guidance, t), GuidanceSpec(contract), found); }
    e, n := FulfillIn(cat, g, ToolSlot(Guidance, t), GuidanceSpec(contract), found);
    assert (first + rest)[..n] == first[..n];
    if e.Some? { return; }
    ghost var db1 := cat.Tables();
    e, a, m := EnrichTool(cat, g, t, contract, found.payload, o);
    assert first[..2] == first && (first + rest)[..2 + m] == first + rest[..m];
    RanAppend(db0, first, db1, rest[..m], cat.Tables());
    n := 2 + m;
  }

  lemma FulfillLength(g: GenerationId, slot: Slot, spec: Spec, a: Artifact)
    ensures |FulfillTxs(g, slot, spec, a)| == 2
  {
  }

  /** The work of a generation: exactly the sources for whose contract no guidance was stored; the others are enriched. */
  ghost predicate WorkIsExact(c: Content, stored: set<Artifact>, done: set<Tool>, pending: seq<Work>) {
    && (forall i :: 0 <= i < |pending| ==> pending[i].0 in done && pending[i].0 in c.sources && pending[i].1 == c.sources[pending[i].0])
    && forall t :: t in done && t in c.sources ==>
         && ((t, c.sources[t]) in pending <==> !HasGuidance(stored, c.sources[t]))
         && (HasGuidance(stored, c.sources[t]) ==> HasEnrichment(c, t))
  }

  lemma WorkGrows(c: Content, d: Content, before: set<Artifact>, stored: set<Artifact>, done: set<Tool>, pending: seq<Work>, t: Tool, more: seq<Work>)
    requires WorkIsExact(c, before, done, pending) && d.sources == c.sources && c.attached.Keys <= d.attached.Keys
    requires AddedVectors(before, stored) && t in c.sources && t !in done
    requires more == if HasGuidance(stored, c.sources[t]) then pending else pending + [(t, c.sources[t])]
    requires HasGuidance(stored, c.sources[t]) ==> HasEnrichment(d, t)
    ensures WorkIsExact(d, before, done + {t}, more)
  {
    hide HasGuidance;
    VectorsAreNoGuidance(before, stored, c.sources[t]);
    assert forall i :: 0 <= i < |pending| ==> pending[i].0 != t;
  }

  /** The artifacts after the tools were prepared in this order. */
  function StoredByAll(artifacts: set<Artifact>, order: seq<Work>, o: Tools): set<Artifact> {
    if order == [] then artifacts
    else
      var n := |order| - 1;
      StoredBy(StoredByAll(artifacts, order[..n], o), order[n].0, order[n].1, o)
  }

  /** The writes that prepare the tools in this order. */
  function PrepareTxs(artifacts: set<Artifact>, g: GenerationId, order: seq<Work>, o: Tools): seq<Tx> {
    if order == [] then []
    else
      var n := |order| - 1;
      PrepareTxs(artifacts, g, order[..n], o) + PrepareToolTxs(StoredByAll(artifacts, order[..n], o), g, order[n].0, order[n].1, o)
  }

  lemma PreparesNext(artifacts: set<Artifact>, g: GenerationId, order: seq<Work>, w: Work, o: Tools)
    ensures PrepareTxs(artifacts, g, order + [w], o)
         == PrepareTxs(artifacts, g, order, o) + PrepareToolTxs(StoredByAll(artifacts, order, o), g, w.0, w.1, o)
    ensures StoredByAll(artifacts, order + [w], o) == StoredBy(StoredByAll(artifacts, order, o), w.0, w.1, o)
  {
    assert (order + [w])[..|order|] == order;
  }

  /** All writes for the tools have been made. */
  ghost predicate PreparedSoFar(a: Db, b: Db, g: GenerationId, order: seq<Work>, o: Tools) {
    Ran(a, PrepareTxs(a.artifacts, g, order, o), b) && b.artifacts == StoredByAll(a.artifacts, order, o)
  }

  lemma PreparedAll(a: Db, b: Db, g: GenerationId, order: seq<Work>, o: Tools)
    requires PreparedSoFar(a, b, g, order, o)
    ensures var txs := PrepareTxs(a.artifacts, g, order, o); Ran(a, txs[..|txs|], b)
  {
    var txs := PrepareTxs(a.artifacts, g, order, o);
    assert txs[..|txs|] == txs;
  }

  /** Some of the writes for one tool more. */
  lemma PreparedMore(a: Db, b: Db, c: Db, g: GenerationId, order: seq<Work>, w: Work, m: nat, o: Tools)
    requires PreparedSoFar(a, b, g, order, o)
    requires var txs := PrepareToolTxs(b.artifacts, g, w.0, w.1, o); m <= |txs| && Ran(b, txs[..m], c)
    ensures var n, txs := |PrepareTxs(a.artifacts, g, order, o)|, PrepareTxs(a.artifacts, g, order + [w], o);
            && n + m <= |txs| && Ran(a, txs[..n + m], c)
            && (m == |PrepareToolTxs(b.artifacts, g, w.0, w.1, o)| && c.artifacts == StoredBy(b.artifacts, w.0, w.1, o) ==>
                  n + m == |txs| && PreparedSoFar(a, c, g, order + [w], o))
  {
    hide Ran, Exec, PrepareToolTxs, PrepareTxs, StoredBy, StoredByAll;
    var before, more := PrepareTxs(a.artifacts, g, order, o), PrepareToolTxs(b.artifacts, g, w.0, w.1, o);
    PreparesNext(a.artifacts, g, order, w, o);
    RanAppend(a, before, b, more[..m], c);
    assert (before + more)[..|before| + m] == before + more[..m];
    assert m == |more| ==> more[..m] == more;
  }

  /** Each source once, with its contract. */
  ghost predicate Enumerates(order: seq<Work>, sources: map<Tool, string>, tools: set<Tool>) {
    && (forall i :: 0 <= i < |order| ==> order[i].0 in sources && order[i].1 == sources[order[i].0])
    && DistinctWork(order) && WorkTools(order) == tools
  }

  lemma EnumeratesNext(order: seq<Work>, sources: map<Tool, string>, tools: set<Tool>, t: Tool)
    requires Enumerates(order, sources, tools) && t in sources && t !in tools
    ensures Enumerates(order + [(t, sources[t])], sources, tools + {t})
  {
    var more := order + [(t, sources[t])];
    assert forall i :: 0 <= i < |order| ==> more[i] == order[i] && order[i].0 in WorkTools(order);
    assert more[|order|].0 == t;
    forall u | u in tools + {t} ensures u in WorkTools(more) {
      if u in tools {
        var i :| 0 <= i < |order| && order[i].0 == u;
        assert more[i].0 == u;
      }
    }
  }

  /** Goes through all sources and collects the work that must be handed out. */
  method PrepareSources(cat: Catalog, g: GenerationId, o: Tools)
    returns (e: Option<Error>, pending: seq<Work>, ghost order: seq<Work>, ghost n: nat)
    requires Building(cat.Tables(), g) && Chooses(o.choose) && AllHave(cat.generations[g].content, Description)
    modifies cat
    ensures Building(cat.Tables(), g) && OnlyContent(old(cat.Tables()), cat.Tables(), g)
    ensures Preparing(old(cat.generations[g].content), cat.generations[g].content)
    ensures PendingReady(cat.generations[g].content, pending)
    ensures n <= |PrepareTxs(old(cat.artifacts), g, order, o)|
    ensures Ran(old(cat.Tables()), PrepareTxs(old(cat.artifacts), g, order, o)[..n], cat.Tables())
    ensures WorkTools(order) <= cat.generations[g].content.sources.Keys && Enumerates(order, cat.generations[g].content.sources, WorkTools(order))
    ensures e.None? ==>
              && WorkIsExact(cat.generations[g].content, old(cat.artifacts), cat.generations[g].content.sources.Keys, pending)
              && n == |PrepareTxs(old(cat.artifacts), g, order, o)|
              && Enumerates(order, cat.generations[g].content.sources, cat.generations[g].content.sources.Keys)
  {
    hide IndexSound, Exec, Ran, AllHave, WorkIsExact, HasGuidance, HasEnrichment, PrepareTxs, PrepareToolTxs, StoredBy, StoredByAll, Enumerates, WorkTools, PendingReady, AddedVectors, PreparedSoFar;
    var sources := cat.generations[g].content.sources;
    var todo := sources.Keys;
    e, pending := None, [];
    ghost var db0 := cat.Tables();
    assert OnlyContent(db0, db0, g);
    NoWork(db0.generations[g].content, db0.artifacts);
    order, n := [], 0;
    NothingPrepared(db0, g, sources, o);
    while todo != {}
      invariant Building(cat.Tables(), g) && OnlyContent(db0, cat.Tables(), g) && e.None?
      invariant Preparing(db0.generations[g].content, cat.generations[g].content)
      invariant PendingReady(cat.generations[g].content, pending)
      invariant todo <= sources.Keys && forall i :: 0 <= i < |pending| ==> pending[i].0 !in todo
      invariant AddedVectors(db0.artifacts, cat.artifacts)
      invariant WorkIsExact(cat.generations[g].content, db0.artifacts, sources.Keys - todo, pending)
      invariant Enumerates(order, sources, sources.Keys - todo) && PreparedSoFar(db0, cat.Tables(), g, order, o)
      invariant n == |PrepareTxs(db0.artifacts, g, order, o)|
      decreases |todo|
    {
      var t :| t in todo;
      ghost var db, c, m := cat.Tables(), cat.generations[g].content, 0;
      var handOut;
      e, handOut, m := PrepareTool(cat, g, t, sources[t], o);
      EnumeratesNext(order, sources, sources.Keys - todo, t);
      PreparedMore(db0, db, cat.Tables(), g, order, (t, sources[t]), m, o);
      order, n := order + [(t, sources[t])], n + m;
      OnlyContentTransitive(db0, db, cat.Tables(), g);
      AddedTransitive(db0.artifacts, db.artifacts, cat.artifacts);
      PendingKept(c, cat.generations[g].content, pending);
      EnumeratesTools(order, sources, sources.Keys - todo + {t});
      if e.Some? { return; }
      ghost var before := pending;
      if handOut {
        PendingGrows(cat.generations[g].content, pending, t, sources[t]);
        pending := pending + [(t, sources[t])];
      }
      WorkGrows(c, cat.generations[g].content, db0.artifacts, db.artifacts, sources.Keys - todo, before, t, pending);
      assert sources.Keys - todo + {t} == sources.Keys - (todo - {t});
      todo := todo - {t};
    }
    assert sources.Keys - todo == sources.Keys;
    EnumeratesTools(order, sources, sources.Keys);
    PreparedAll(db0, cat.Tables(), g, order, o);
  }

  lemma EnumeratesTools(order: seq<Work>, sources: map<Tool, string>, tools: set<Tool>)
    requires Enumerates(order, sources, tools)
    ensures WorkTools(order) == tools
  {
  }

  lemma NothingPrepared(db: Db, g: GenerationId, sources: map<Tool, string>, o: Tools)
    ensures PreparedSoFar(db, db, g, [], o) && PrepareTxs(db.artifacts, g, [], o) == []
    ensures Enumerates([], sources, sources.Keys - sources.Keys)
  {
  }

  lemma NoWork(c: Content, stored: set<Artifact>)
    ensures WorkIsExact(c, stored, c.sources.Keys - c.sources.Keys, []) && PendingReady(c, []) && AddedVectors(stored, stored)
  {
  }

  /** One batch per part of the work, numbered. */
  function ToolBatches(g: GenerationId, parts: seq<seq<Work>>): map<BatchId, Batch> {
    map k | 0 <= k < |parts| :: BatchId(g, ToolBatch, Ordinal(k)) := Batch(true, ToolRequest(parts[k]), None)
  }

  lemma PartsOfPending(parts: seq<seq<Work>>, pending: seq<Work>, k: nat)
    requires Flatten(parts) == pending && k < |parts|
    ensures var start := |Flatten(parts[..k])|;
            start + |parts[k]| <= |pending| && pending[start..start + |parts[k]|] == parts[k]
  {
    FlattenAt(parts, k);
  }

  lemma SliceReady(c: Content, pending: seq<Work>, start: nat, part: seq<Work>)
    requires PendingReady(c, pending) && start + |part| <= |pending| && pending[start..start + |part|] == part
    ensures PendingReady(c, part)
  {
    assert forall i :: 0 <= i < |part| ==> part[i] == pending[start + i];
  }

  lemma BatchesWellFormed(c: Content, parts: seq<seq<Work>>, pending: seq<Work>, k: nat)
    requires Flatten(parts) == pending && k < |parts| && PendingReady(c, pending)
    ensures WellFormed(ToolBatch, ToolRequest(parts[k])) && PendingReady(c, parts[k])
  {
    hide Flatten;
    PartsOfPending(parts, pending, k);
    SliceReady(c, pending, |Flatten(parts[..k])|, parts[k]);
  }

  /** Tools of the new batches join those of the generation's batches. */
  lemma BatchedTools(db: Db, g: GenerationId, parts: seq<seq<Work>>, t: Tool)
    requires t in BatchTools(db.(batches := ToolBatches(g, parts) + db.batches), g)
    ensures t in BatchTools(db, g) || exists k, i :: 0 <= k < |parts| && 0 <= i < |parts[k]| && parts[k][i].0 == t
  {
    var all := ToolBatches(g, parts) + db.batches;
    var b, i :| b in all && b.generation == g && all[b].request.ToolRequest?
                && 0 <= i < |all[b].request.items| && all[b].request.items[i].0 == t;
    if b !in db.batches {
      var k := b.key.n;
      assert all[b] == Batch(true, ToolRequest(parts[k]), None);
      assert parts[k][i].0 == t;
    }
  }

  lemma OtherBatches(db: Db, g: GenerationId, parts: seq<seq<Work>>, h: GenerationId)
    ensures var u := db.(batches := ToolBatches(g, parts) + db.batches);
            && (h != g ==> BatchTools(u, h) == BatchTools(db, h))
            && ReconciledTools(u, h) == ReconciledTools(db, h)
  {
    var u := db.(batches := ToolBatches(g, parts) + db.batches);
    assert forall b :: b in u.batches && b !in db.batches ==> b.generation == g && u.batches[b].request.ToolRequest?;
    assert ReconciledTools(u, h) <= ReconciledTools(db, h) <= ReconciledTools(u, h);
    if h != g {
      assert BatchTools(u, h) <= BatchTools(db, h) <= BatchTools(u, h);
    }
  }

  /** The parts of work in which each tool comes once have no tool in common. */
  lemma {:induction false} PartsDisjoint(c: Content, parts: seq<seq<Work>>, pending: seq<Work>, k: nat, l: nat)
    requires Flatten(parts) == pending && k < l < |parts| && PendingReady(c, pending)
    ensures WorkTools(parts[k]) !! WorkTools(parts[l])
  {
    FlattenAt(parts, k);
    FlattenAt(parts, l);
    FlattenGrows(parts, k + 1, l);
    var start, next := |Flatten(parts[..k])|, |Flatten(parts[..l])|;
    forall i, j | 0 <= i < |parts[k]| && 0 <= j < |parts[l]| ensures parts[k][i].0 != parts[l][j].0 {
      assert parts[k][i] == pending[start + i] && parts[l][j] == pending[next + j];
    }
  }

  lemma {:induction false} FlattenGrows<T>(parts: seq<seq<T>>, k: nat, l: nat)
    requires k <= l <= |parts|
    ensures |Flatten(parts[..k])| <= |Flatten(parts[..l])|
    decreases l - k
  {
    if k < l {
      FlattenAt(parts, l - 1);
      FlattenGrows(parts, k, l - 1);
    }
  }

  lemma NewWorkDisjoint(db: Db, g: GenerationId, parts: seq<seq<Work>>, pending: seq<Work>, c: Content)
    requires DisjointWork(db.batches) && Flatten(parts) == pending && PendingReady(c, pending)
    requires forall b :: b in db.batches && b.generation == g ==> !db.batches[b].request.ToolRequest?
    ensures DisjointWork(ToolBatches(g, parts) + db.batches)
  {
    hide WorkTools, Flatten, PendingReady;
    var all := ToolBatches(g, parts) + db.batches;
    forall b, x | b in all && x in all && b != x && b.generation == x.generation
      ensures RequestTools(all[b].request) !! RequestTools(all[x].request)
    {
      if b !in db.batches && x !in db.batches {
        assert all[b].request == ToolRequest(parts[b.key.n]) && all[x].request == ToolRequest(parts[x.key.n]);
        if b.key.n < x.key.n {
          PartsDisjoint(c, parts, pending, b.key.n, x.key.n);
        } else {
          PartsDisjoint(c, parts, pending, x.key.n, b.key.n);
        }
      }
    }
  }

  lemma NewWorkOrdered(db: Db, g: GenerationId, parts: seq<seq<Work>>, pending: seq<Work>)
    requires Building(db, g) && Flatten(parts) == pending
    requires PendingReady(db.generations[g].content, pending) && AllHave(db.generations[g].content, Description)
    ensures var u := db.(batches := ToolBatches(g, parts) + db.batches); SoundFor(u, g, db.generations[g].content)
  {
    hide IndexSound, ArtifactsMatch, LexicalFirst, GatesOrdered, BatchTools, ReconciledTools, Flatten, ToolBatches;
    var u, c := db.(batches := ToolBatches(g, parts) + db.batches), db.generations[g].content;
    OtherBatches(db, g, parts, g);
    StaysSound(db, g);
    forall t | t in BatchTools(u, g) ensures t in c.sources && EnrichedGate(t) in c.requirements {
      BatchedTools(db, g, parts, t);
      if t !in BatchTools(db, g) {
        var k, i :| 0 <= k < |parts| && 0 <= i < |parts[k]| && parts[k][i].0 == t;
        BatchesWellFormed(c, parts, pending, k);
      }
    }
  }

  /** Handing out ready work keeps the index sound. */
  lemma BatchesKeep(db: Db, g: GenerationId, parts: seq<seq<Work>>, pending: seq<Work>)
    requires Building(db, g) && Flatten(parts) == pending
    requires forall b :: b in db.batches && b.generation == g ==> !b.kind.ToolBatch?
    requires PendingReady(db.generations[g].content, pending) && AllHave(db.generations[g].content, Description)
    ensures IndexSound(db.(batches := ToolBatches(g, parts) + db.batches))
  {
    hide GenerationSound, BatchTools, ReconciledTools, DisjointWork, Flatten, WellFormed, AllHave;
    var u, c := db.(batches := ToolBatches(g, parts) + db.batches), db.generations[g].content;
    NoToolWork(db, g);
    NewWorkDisjoint(db, g, parts, pending, c);
    NewWorkOrdered(db, g, parts, pending);
    forall b | b in u.batches ensures b.generation in u.generations && WellFormed(b.kind, u.batches[b].request) {
      if b !in db.batches {
        BatchesWellFormed(c, parts, pending, b.key.n);
      }
    }
    forall h | h in u.generations ensures GenerationSound(u.generations[h].content, BatchTools(u, h), ReconciledTools(u, h)) {
      OtherBatches(db, g, parts, h);
    }
  }

  lemma NoToolWork(db: Db, g: GenerationId)
    requires IndexSound(db) && forall b :: b in db.batches && b.generation == g ==> !b.kind.ToolBatch?
    ensures forall b :: b in db.batches && b.generation == g ==> !db.batches[b].request.ToolRequest?
  {
    hide GenerationSound;
  }

  /** Every source has its description vector: the count agrees, and every vector belongs to a source. */
  method CheckDescriptions(c: Content) returns (ok: bool)
    requires ArtifactsMatch(c)
    ensures ok <==> AllHave(c, Description)
  {
    IndexedAll(c, Description);
    ok := |Indexed(c, Description)| == |c.sources.Keys|;
  }

  predicate HasBatch(batches: map<BatchId, Batch>, g: GenerationId, kind: BatchKind) {
    exists b :: b in batches && b.generation == g && b.kind == kind
  }

  /** The writes of a preparation before it hands out batches: the capability gate, and then tool by tool. */
  function DeclareTxs(sources: map<Tool, string>, artifacts: set<Artifact>, g: GenerationId, order: seq<Work>, o: Tools): seq<Tx> {
    [RequireDependency(g, CapabilityGate, OfSources(sources))] + PrepareTxs(artifacts, g, order, o)
  }

  /** The state is that after some of these writes, for some of the sources in some order. */
  ghost predicate Declares(a: Db, b: Db, g: GenerationId, order: seq<Work>, n: nat, o: Tools) {
    && g in a.generations
    && var sources := a.generations[g].content.sources;
       var txs := DeclareTxs(sources, a.artifacts, g, order, o);
       Enumerates(order, sources, WorkTools(order)) && n <= |txs| && Ran(a, txs[..n], b)
  }

  ghost predicate Declaring(a: Db, b: Db, g: GenerationId, o: Tools) {
    exists order, n :: Declares(a, b, g, order, n, o)
  }

  /** All writes of a preparation that hands out batches. */
  ghost predicate MadeBatches(a: Db, b: Db, g: GenerationId, order: seq<Work>, parts: seq<seq<Work>>, o: Tools) {
    && g in a.generations
    && var sources := a.generations[g].content.sources;
       && Enumerates(order, sources, sources.Keys)
       && Ran(a, DeclareTxs(sources, a.artifacts, g, order, o) + [PutBatches(ToolBatches(g, parts))], b)
  }

  /** Every source has its description vector, and the work that is left was cut into greedy batches and handed out. */
  ghost predicate HandsOut(a: Db, b: Db, g: GenerationId, limits: Limits, pending: seq<Work>, order: seq<Work>, parts: seq<seq<Work>>, o: Tools) {
    && MadeBatches(a, b, g, order, parts, o)
    && g in b.generations && AllHave(b.generations[g].content, Description)
    && PendingReady(b.generations[g].content, pending)
    && WorkIsExact(b.generations[g].content, a.artifacts, b.generations[g].content.sources.Keys, pending)
    && Batching(parts, pending, Bounds(limits.batchSize, limits.maxBytes, limits.size))
    && Greedy(parts, Bounds(limits.batchSize, limits.maxBytes, limits.size))
    && b.batches == ToolBatches(g, parts) + a.batches
  }

  ghost predicate HandedOut(a: Db, b: Db, g: GenerationId, limits: Limits, o: Tools) {
    exists pending, order, parts :: HandsOut(a, b, g, limits, pending, order, parts, o)
  }

  /** Makes the tool batches of a generation, or repairs the effects of those that are accepted already. */
  method PrepareToolEnrichment(cat: Catalog, g: GenerationId, limits: Limits, o: Tools) returns (e: Option<Error>)
    requires IndexSound(cat.Tables()) && Faithful(o) && limits.batchSize > 0
    modifies cat
    ensures IndexSound(cat.Tables()) && SameSources(old(cat.Tables()), cat.Tables())
    ensures e.Some? ==> cat.batches == old(cat.batches)
    ensures g !in old(cat.generations) ==> cat.Tables() == old(cat.Tables())
    ensures e.Some? && !HasBatch(old(cat.batches), g, ToolBatch) ==>
              cat.Tables() == old(cat.Tables()) || Declaring(old(cat.Tables()), cat.Tables(), g, o)
    ensures e.None? && !HasBatch(old(cat.batches), g, ToolBatch) ==> HandedOut(old(cat.Tables()), cat.Tables(), g, limits, o)
    ensures HasBatch(old(cat.batches), g, ToolBatch) ==>
              cat.Tables() == old(cat.Tables()) || Interrupted(old(cat.Tables()), AcceptedTools(cat.batches, g), cat.Tables(), o)
    ensures e.None? && HasBatch(old(cat.batches), g, ToolBatch) ==>
              && cat.batches == old(cat.batches)
              && Completed(old(cat.Tables()), AcceptedTools(cat.batches, g), cat.Tables(), o)
              && RepairedFrom(old(cat.Tables()), AcceptedTools(cat.batches, g), cat.Tables(), o)
  {
    hide GenerationSound, Exec, SameSources, AllHave, PendingReady, HandedOut, Declaring, Completed, Interrupted, RepairedFrom;
    SameSourcesReflexive(cat.Tables());
    e := StagingError(cat.Tables(), g);
    if e.Some? { return; }
    if HasBatch(cat.batches, g, ToolBatch) {
      e := RepairToolBatches(cat, g, o);
      return;
    }
    e := MakeToolBatches(cat, g, limits, o);
  }

  method MakeToolBatches(cat: Catalog, g: GenerationId, limits: Limits, o: Tools) returns (e: Option<Error>)
    requires Building(cat.Tables(), g) && Faithful(o) && limits.batchSize > 0
    requires forall b :: b in cat.batches && b.generation == g ==> !b.kind.ToolBatch?
    modifies cat
    ensures IndexSound(cat.Tables()) && SameSources(old(cat.Tables()), cat.Tables())
    ensures e.None? ==> HandedOut(old(cat.Tables()), cat.Tables(), g, limits, o)
    ensures e.Some? ==> cat.batches == old(cat.batches) && Declaring(old(cat.Tables()), cat.Tables(), g, o)
  {
    hide IndexSound, Exec, Ran, SameSources, AllHave, PendingReady, Batching, Greedy, WorkIsExact, Enumerates, PrepareTxs, RowsOnly;
    ghost var db0, sources := cat.Tables(), cat.generations[g].content.sources;
    SameSourcesReflexive(db0);
    NothingDeclared(db0, g, o);
    e := RequireIn(cat, g, CapabilityGate, OfSources(cat.generations[g].content.sources));
    ghost var db1 := cat.Tables();
    OnlyContentSame(db0, db1, g);
    if e.Some? { return; }
    GateDeclared(db0, db1, g, o);
    MatchesIn(cat.Tables(), g);
    var described := CheckDescriptions(cat.generations[g].content);
    if !described { return Some(GenerationIncomplete); }
    var pending;
    ghost var order, n;
    e, pending, order, n := PrepareSources(cat, g, o);
    ghost var db2 := cat.Tables();
    OnlyContentTransitive(db0, db1, db2, g);
    OnlyContentSame(db0, db2, g);
    SomeDeclared(db0, db1, db2, g, order, n, o);
    if e.Some? { return; }
    var split := SplitWork(pending, limits.batchSize, limits.maxBytes, limits.size);
    if split.Err? { return Some(MissingArgument); }
    BatchingFlattens(split.value, pending, Bounds(limits.batchSize, limits.maxBytes, limits.size));
    BatchesKeep(db2, g, split.value, pending);
    e := cat.PutEnrichmentBatches(ToolBatches(g, split.value));
    if e.None? {
      PutBatchesOnly(db2, ToolBatches(g, split.value));
      SameSourcesTransitive(db0, db2, cat.Tables());
      assert PrepareTxs(db1.artifacts, g, order, o)[..n] == PrepareTxs(db1.artifacts, g, order, o);
      AllDeclared(db0, db1, db2, cat.Tables(), g, order, split.value, o);
      assert HandsOut(db0, cat.Tables(), g, limits, pending, order, split.value, o);
    }
  }

  lemma NothingDeclared(db: Db, g: GenerationId, o: Tools)
    requires g in db.generations
    ensures Declaring(db, db, g, o)
  {
    NothingRan(db, DeclareTxs(db.generations[g].content.sources, db.artifacts, g, [], o));
    assert Declares(db, db, g, [], 0, o);
  }

  /** The capability gate is declared, and then some of the writes for the tools are made. */
  lemma SomeDeclared(a: Db, b: Db, c: Db, g: GenerationId, order: seq<Work>, n: nat, o: Tools)
    requires g in a.generations && g in b.generations && b.artifacts == a.artifacts
    requires Enumerates(order, a.generations[g].content.sources, WorkTools(order))
    requires Exec(a, RequireDependency(g, CapabilityGate, OfSources(a.generations[g].content.sources))) == Ok(b)
    requires n <= |PrepareTxs(b.artifacts, g, order, o)| && Ran(b, PrepareTxs(b.artifacts, g, order, o)[..n], c)
    ensures Declares(a, c, g, order, n + 1, o) && Declaring(a, c, g, o)
  {
    hide Exec, Ran, PrepareTxs, Enumerates;
    var tx, rest := RequireDependency(g, CapabilityGate, OfSources(a.generations[g].content.sources)), PrepareTxs(b.artifacts, g, order, o);
    RanOne(a, tx, b);
    RanAppend(a, [tx], b, rest[..n], c);
    assert ([tx] + rest)[..n + 1] == [tx] + rest[..n];
  }

  lemma GateDeclared(a: Db, b: Db, g: GenerationId, o: Tools)
    requires g in a.generations && g in b.generations && b.artifacts == a.artifacts
    requires Exec(a, RequireDependency(g, CapabilityGate, OfSources(a.generations[g].content.sources))) == Ok(b)
    ensures Declaring(a, b, g, o)
  {
    hide Exec, Ran;
    NothingRan(b, PrepareTxs(b.artifacts, g, [], o));
    SomeDeclared(a, b, b, g, [], 0, o);
  }

  lemma AllDeclared(a: Db, b: Db, c: Db, d: Db, g: GenerationId, order: seq<Work>, parts: seq<seq<Work>>, o: Tools)
    requires g in a.generations && g in b.generations && b.artifacts == a.artifacts
    requires Enumerates(order, a.generations[g].content.sources, a.generations[g].content.sources.Keys)
    requires Exec(a, RequireDependency(g, CapabilityGate, OfSources(a.generations[g].content.sources))) == Ok(b)
    requires Ran(b, PrepareTxs(b.artifacts, g, order, o), c) && Exec(c, PutBatches(ToolBatches(g, parts))) == Ok(d)
    ensures MadeBatches(a, d, g, order, parts, o)
  {
    hide Exec, Ran, PrepareTxs, Enumerates, ToolBatches;
    var tx, rest := RequireDependency(g, CapabilityGate, OfSources(a.generations[g].content.sources)), PrepareTxs(b.artifacts, g, order, o);
    RanOne(a, tx, b);
    RanAppend(a, [tx], b, rest, c);
    RanOne(c, PutBatches(ToolBatches(g, parts)), d);
    RanAppend(a, [tx] + rest, c, [PutBatches(ToolBatches(g, parts))], d);
  }

  lemma MatchesIn(db: Db, g: GenerationId)
    requires Building(db, g)
    ensures ArtifactsMatch(db.generations[g].content)
  {
    StaysSound(db, g);
  }

  lemma BatchingFlattens(parts: seq<seq<Work>>, pending: seq<Work>, fits: seq<Work> -> bool)
    requires Batching(parts, pending, fits)
    ensures Flatten(parts) == pending
  {
  }

  lemma PutBatchesOnly(db: Db, batches: map<BatchId, Batch>)
    requires Exec(db, PutBatches(batches)).Ok?
    ensures Exec(db, PutBatches(batches)).value == db.(batches := batches + db.batches)
    ensures SameSources(db, Exec(db, PutBatches(batches)).value)
  {
  }
}
