/**
 Capability reconciliation: the batch over all sources is handed out, answered and repaired.
 */
module CapabilityPreparation {
  import opened Common
  import opened CatalogModel
  import opened CatalogTables
  import opened IndexInvariant
  import opened IndexBuild
  import opened IndexEnrichment
  import opened Submission
  import opened Replay
  import opened ToolPreparation

  lemma ReviewsKeep(db: Db, g: GenerationId, proposals: seq<string>)
    requires Building(db, g)
    ensures IndexSound(db.(batches := ReviewBatches(g, proposals) + db.batches))
  {
    hide GenerationSound;
    var u := db.(batches := ReviewBatches(g, proposals) + db.batches);
    assert forall b :: b in u.batches && b !in db.batches ==> b.generation == g && u.batches[b].request.ReviewRequest? && b.kind.ReviewBatch?;
    forall h | h in u.generations
      ensures BatchTools(u, h) == BatchTools(db, h) && ReconciledTools(u, h) == ReconciledTools(db, h)
    {
      assert BatchTools(u, h) <= BatchTools(db, h) <= BatchTools(u, h);
      assert ReconciledTools(u, h) <= ReconciledTools(db, h) <= ReconciledTools(u, h);
    }
  }

  /** Attaches a stored hierarchy, and satisfies the gate. */
  method HoldHierarchy(cat: Catalog, g: GenerationId, spec: Spec, a: Artifact) returns (e: Option<Error>, ghost n: nat)
    requires Building(cat.Tables(), g)
    modifies cat
    ensures IndexSound(cat.Tables()) && SameSources(old(cat.Tables()), cat.Tables()) && cat.batches == old(cat.batches)
    ensures g in cat.generations && old(cat.generations[g].content.attached.Keys) <= cat.generations[g].content.attached.Keys
    ensures n <= 3 && (e.None? ==> n == 3)
    ensures Ran(old(cat.Tables()), HoldTxs(g, spec, a, old(cat.generations[g].content.sources))[..n], cat.Tables())
  {
    hide IndexSound, Exec, SameSources, Ran, RowsOnly;
    ghost var db0 := cat.Tables();
    ghost var txs := HoldTxs(g, spec, a, cat.generations[g].content.sources);
    e, n := FulfillIn(cat, g, HierarchySlot, spec, a);
    ghost var db1 := cat.Tables();
    OnlyContentSame(db0, db1, g);
    assert txs[..n] == FulfillTxs(g, HierarchySlot, spec, a)[..n];
    if e.Some? { return; }
    e := SatisfyGateIn(cat, g, CapabilityGate, OfSources(cat.generations[g].content.sources));
    OnlyContentSame(db1, cat.Tables(), g);
    SameSourcesTransitive(db0, db1, cat.Tables());
    if e.Some? { return; }
    RanNext(db0, txs, 2, db1, cat.Tables());
    n := 3;
  }

  method AttachHierarchy(cat: Catalog, g: GenerationId, spec: Spec, hierarchy: string) returns (e: Option<Error>, ghost n: nat)
    requires Building(cat.Tables(), g)
    modifies cat
    ensures IndexSound(cat.Tables()) && SameSources(old(cat.Tables()), cat.Tables()) && cat.batches == old(cat.batches)
    ensures n <= 4 && (e.None? ==> n == 4)
    ensures Ran(old(cat.Tables()), HierarchyTxs(g, spec, hierarchy, old(cat.generations[g].content.sources))[..n], cat.Tables())
  {
    hide IndexSound, Exec, SameSources, Ran, HoldTxs;
    ghost var db0, m := cat.Tables(), 0;
    ghost var txs := HierarchyTxs(g, spec, hierarchy, cat.generations[g].content.sources);
    SameSourcesReflexive(db0);
    NothingRan(db0, txs);
    n := 0;
    var a := Artifact(spec, hierarchy);
    e := StoreIn(cat, g, a);
    ghost var db1 := cat.Tables();
    OnlyContentSame(db0, db1, g);
    if e.Some? { return; }
    RanNext(db0, txs, 0, db0, db1);
    e, m := HoldHierarchy(cat, g, spec, a);
    SameSourcesTransitive(db0, db1, cat.Tables());
    assert txs[1..1 + m] == HoldTxs(g, spec, a, db0.generations[g].content.sources)[..m];
    RanMore(db0, txs, 1, m, db1, cat.Tables());
    n := 1 + m;
  }

  /** The writes of an accepted capability response: review batches, hierarchy artifact and gate. */
  method WriteHierarchy(cat: Catalog, g: GenerationId, tools: set<Tool>, hierarchy: string, proposals: seq<string>)
    returns (e: Option<Error>, ghost n: nat)
    requires Building(cat.Tables(), g)
    modifies cat
    ensures IndexSound(cat.Tables()) && SameSources(old(cat.Tables()), cat.Tables())
    ensures forall b :: b in old(cat.batches) ==> b in cat.batches && cat.batches[b] == old(cat.batches)[b]
    ensures n <= 5 && (e.None? ==> n == 5)
    ensures var c := old(cat.generations[g].content);
            Ran(old(cat.Tables()), ([PutBatches(ReviewBatches(g, proposals))]
                                    + HierarchyTxs(g, HierarchySpec(GuidanceItems(c, tools)), hierarchy, c.sources))[..n], cat.Tables())
  {
    hide IndexSound, Exec, SameSources, Ran, HierarchyTxs;
    ghost var db0 := cat.Tables();
    SameSourcesReflexive(db0);
    var c := cat.generations[g].content;
    var spec := HierarchySpec(GuidanceItems(c, tools));
    ghost var rest := HierarchyTxs(g, spec, hierarchy, c.sources);
    ghost var txs := [PutBatches(ReviewBatches(g, proposals))] + rest;
    NothingRan(db0, txs);
    n := 0;
    if exists t :: t in tools && ToolSlot(Guidance, t) !in c.attached {
      return Some(GenerationIncomplete), 0;
    }
    ReviewsKeep(db0, g, proposals);
    e := cat.PutEnrichmentBatches(ReviewBatches(g, proposals));
    if e.Some? { return; }
    PutBatchesOnly(db0, ReviewBatches(g, proposals));
    ghost var db1, m := cat.Tables(), 0;
    RanNext(db0, txs, 0, db0, db1);
    HierarchyLength(g, spec, hierarchy, c.sources);
    e, m := AttachHierarchy(cat, g, spec, hierarchy);
    SameSourcesTransitive(db0, db1, cat.Tables());
    assert txs[1..1 + m] == rest[..m];
    RanMore(db0, txs, 1, m, db1, cat.Tables());
    n := 1 + m;
  }

  /**
   Submits a capability response; `valid` is the verdict on its hierarchy and proposals. As with a tool
   batch, the state is always that after some number of the submission's writes.
   */
  method SubmitCapabilityBatch(cat: Catalog, b: BatchId, response: Response, valid: bool) returns (e: Option<Error>, ghost n: nat)
    requires IndexSound(cat.Tables())
    modifies cat
    ensures IndexSound(cat.Tables()) && SameSources(old(cat.Tables()), cat.Tables())
    ensures !Reconciles(old(cat.Tables()), b, response, valid) ==> e.Some? && cat.Tables() == old(cat.Tables())
    ensures e.None? ==> b in cat.batches && cat.batches[b].accepted == Some(response)
    ensures Reconciles(old(cat.Tables()), b, response, valid) ==>
              && b.generation in old(cat.generations)
              && CapabilityCut(old(cat.Tables()), b, response, n, cat.Tables())
              && (e.None? ==>
                    if old(cat.generations[b.generation].status) == Staging then n == 6 else cat.Tables() == old(cat.Tables()))
  {
    hide IndexSound, Exec, SameSources, Ran, HierarchyTxs;
    ghost var db0 := cat.Tables();
    SameSourcesReflexive(db0);
    n := 0;
    if b !in cat.batches || !b.kind.CapabilityBatch? || !response.CapabilityResponse? || !valid {
      return Some(BatchNotFound), 0;
    }
    BatchKnown(cat.Tables(), b);
    ghost var txs := CapabilityTxsFor(db0, b, response);
    NothingRan(db0, txs);
    CapabilityLength(db0, b, response);
    e := cat.AcceptEnrichmentBatch(b, response);
    if e.Some? { return; }
    ghost var db1, m := cat.Tables(), 0;
    AcceptKeeps(db0, b, response);
    AcceptOnly(db0, b, response);
    AcceptRecords(db0, b, response);
    RanNext(db0, txs, 0, db0, db1);
    n := 1;
    if cat.generations[b.generation].status != Staging {
      UnchangedByRepeat(db0, b, response);
      return;
    }
    e, m := WriteHierarchy(cat, b.generation, cat.batches[b].request.tools, response.hierarchy, response.proposals);
    SameSourcesTransitive(db0, db1, cat.Tables());
    assert txs[1..1 + m] == txs[1..][..m];
    RanMore(db0, txs, 1, m, db1, cat.Tables());
    n := 1 + m;
  }

  lemma AcceptRecords(db: Db, b: BatchId, r: Response)
    requires Exec(db, AcceptBatch(b, r)).Ok?
    ensures var u := Exec(db, AcceptBatch(b, r)).value; b in u.batches && u.batches[b].accepted == Some(r)
  {
  }

  function CapabilityId(g: GenerationId): BatchId {
    BatchId(g, CapabilityBatch, Global)
  }

  lemma CapabilityTools(db: Db, g: GenerationId, tools: set<Tool>, h: GenerationId)
    requires forall b :: b in db.batches && b.generation == g ==> !b.kind.CapabilityBatch? && !db.batches[b].request.CapabilityRequest?
    ensures var u := db.(batches := map[CapabilityId(g) := Batch(true, CapabilityRequest(tools), None)] + db.batches);
            && BatchTools(u, h) == BatchTools(db, h)
            && ReconciledTools(u, h) == if h == g then tools else ReconciledTools(db, h)
  {
    var u := db.(batches := map[CapabilityId(g) := Batch(true, CapabilityRequest(tools), None)] + db.batches);
    assert BatchTools(u, h) <= BatchTools(db, h) <= BatchTools(u, h);
    if h == g {
      assert CapabilityId(g) in u.batches && u.batches[CapabilityId(g)].request.tools == tools;
      assert tools <= ReconciledTools(u, g) <= tools;
    } else {
      assert ReconciledTools(u, h) <= ReconciledTools(db, h) <= ReconciledTools(u, h);
    }
  }

  lemma OtherWorkDisjoint(batches: map<BatchId, Batch>, more: map<BatchId, Batch>)
    requires DisjointWork(batches) && forall b :: b in more ==> !more[b].request.ToolRequest?
    ensures DisjointWork(more + batches)
  {
  }

  lemma CapabilityKeeps(db: Db, g: GenerationId)
    requires Building(db, g) && AllHave(db.generations[g].content, Guidance)
    requires forall b :: b in db.batches && b.generation == g ==> !b.kind.CapabilityBatch?
    ensures var batches := map[CapabilityId(g) := Batch(true, CapabilityRequest(db.generations[g].content.sources.Keys), None)];
            IndexSound(db.(batches := batches + db.batches))
  {
    hide ArtifactsMatch, LexicalFirst, GatesOrdered, BatchTools, ReconciledTools, DisjointWork;
    var c := db.generations[g].content;
    var u := db.(batches := map[CapabilityId(g) := Batch(true, CapabilityRequest(c.sources.Keys), None)] + db.batches);
    OtherWorkDisjoint(db.batches, map[CapabilityId(g) := Batch(true, CapabilityRequest(c.sources.Keys), None)]);
    forall h | h in u.generations ensures GenerationSound(u.generations[h].content, BatchTools(u, h), ReconciledTools(u, h)) {
      assert SoundFor(db, h, db.generations[h].content);
      CapabilityTools(db, g, c.sources.Keys, h);
    }
  }

  /** The response that the capability batch of a generation has been given. */
  function AcceptedCapability(batches: map<BatchId, Batch>, g: GenerationId): Option<Response> {
    if CapabilityId(g) in batches then batches[CapabilityId(g)].accepted else None
  }

  /** Every cut submission that led to one state ends, when nothing interrupts it, in the other. */
  ghost predicate CapabilityRepaired(mid: Db, b: BatchId, response: Response, repaired: Db) {
    forall a, k, c :: CapabilityCut(a, b, response, k, mid) && CapabilityCut(a, b, response, 6, c) ==> repaired == c
  }

  /**
   Submits the accepted capability batch of a generation again, for its effects; `valid` is the verdict on
   the response, which is checked again. If it succeeds, then however the submission had been cut off
   before, the state is that in which it ends when nothing interrupts it.
   */
  method RepairCapabilityBatch(cat: Catalog, g: GenerationId, valid: bool) returns (e: Option<Error>, ghost n: nat)
    requires Building(cat.Tables(), g)
    modifies cat
    ensures IndexSound(cat.Tables()) && SameSources(old(cat.Tables()), cat.Tables())
    ensures var accepted, b := AcceptedCapability(old(cat.batches), g), CapabilityId(g);
            && (accepted.None? ==> e.None? && cat.Tables() == old(cat.Tables()))
            && (accepted.Some? && !Reconciles(old(cat.Tables()), b, accepted.value, valid) ==>
                  e.Some? && cat.Tables() == old(cat.Tables()))
            && (accepted.Some? && Reconciles(old(cat.Tables()), b, accepted.value, valid) ==>
                  && CapabilityCut(old(cat.Tables()), b, accepted.value, n, cat.Tables())
                  && (e.None? ==> n == 6 && CapabilityRepaired(old(cat.Tables()), b, accepted.value, cat.Tables())))
  {
    hide CapabilityCut, IndexSound, SameSources;
    SameSourcesReflexive(cat.Tables());
    var b := CapabilityId(g);
    if b in cat.batches && cat.batches[b].accepted.Some? {
      ghost var db := cat.Tables();
      var response := cat.batches[b].accepted.value;
      e, n := SubmitCapabilityBatch(cat, b, response, valid);
      if e.None? {
        forall a, k, c | CapabilityCut(a, b, response, k, db) && CapabilityCut(a, b, response, 6, c) ensures cat.Tables() == c {
          CapabilityCrashThenRepair(a, b, response, k, db, cat.Tables(), c);
        }
      }
    } else {
      e, n := None, 0;
    }
  }

  lemma AllHaveStays(c: Content, d: Content, role: Role)
    requires AllHave(c, role) && d.sources == c.sources && d.attached == c.attached
    ensures AllHave(d, role)
  {
  }

  /** The identity of the hierarchy over the guidance that all sources have. */
  function HierarchyOf(c: Content): Spec {
    HierarchySpec(GuidanceItems(c, c.sources.Keys))
  }

  function CapabilityWork(g: GenerationId, c: Content): map<BatchId, Batch> {
    map[CapabilityId(g) := Batch(true, CapabilityRequest(c.sources.Keys), None)]
  }

  /** The writes that hand out the capability batch, and those that answer it at once with a stored hierarchy. */
  function AskTxs(c: Content, g: GenerationId, reused: Option<Artifact>): (txs: seq<Tx>)
    ensures |txs| == if reused.Some? then 7 else 3
  {
    [RequireDependency(g, CapabilityGate, OfSources(c.sources)), RequireDependency(g, ArtifactKey(HierarchySlot), OfSpec(HierarchyOf(c))),
     PutBatches(CapabilityWork(g, c))]
    + (if reused.None? then []
       else [AcceptBatch(CapabilityId(g), CapabilityResponse(reused.value.payload, []))] + HoldTxs(g, HierarchyOf(c), reused.value, c.sources))
  }

  /** Declares the gate, and the hierarchy over the guidance of all sources once they all have some. */
  method DeclareHierarchy(cat: Catalog, g: GenerationId, maxTools: nat) returns (e: Option<Error>, ghost n: nat)
    requires Building(cat.Tables(), g)
    modifies cat
    ensures Building(cat.Tables(), g) && SameSources(old(cat.Tables()), cat.Tables()) && cat.batches == old(cat.batches)
    ensures n <= 2 && forall r :: Ran(old(cat.Tables()), AskTxs(old(cat.generations[g].content), g, r)[..n], cat.Tables())
    ensures cat.artifacts == old(cat.artifacts)
    ensures e.None? ==>
              && n == 2 && AllHave(cat.generations[g].content, Guidance)
              && HierarchyOf(cat.generations[g].content) == HierarchyOf(old(cat.generations[g].content))
  {
    hide IndexSound, Exec, Ran, SameSources, AllHave, ArtifactsMatch, Indexed, RowsOnly, GuidanceItems;
    ghost var db0, c0 := cat.Tables(), cat.generations[g].content;
    n := 0;
    forall r ensures Ran(db0, AskTxs(c0, g, r)[..0], db0) { NothingRan(db0, AskTxs(c0, g, r)); }
    e := RequireIn(cat, g, CapabilityGate, OfSources(cat.generations[g].content.sources));
    ghost var db1 := cat.Tables();
    OnlyContentSame(db0, db1, g);
    if e.Some? { return; }
    forall r ensures Ran(db0, AskTxs(c0, g, r)[..1], db1) { RanNext(db0, AskTxs(c0, g, r), 0, db0, db1); }
    n := 1;
    var c := cat.generations[g].content;
    SameGuidance(c0, c);
    if |c.sources| > maxTools { return Some(MissingArgument), 1; }
    MatchesIn(db1, g);
    IndexedAll(c, Guidance);
    if |Indexed(c, Guidance)| != |c.sources.Keys| { return Some(GenerationIncomplete), 1; }
    e := RequireIn(cat, g, ArtifactKey(HierarchySlot), OfSpec(HierarchySpec(GuidanceItems(c, c.sources.Keys))));
    OnlyContentTransitive(db0, db1, cat.Tables(), g);
    OnlyContentSame(db0, cat.Tables(), g);
    AllHaveStays(c, cat.generations[g].content, Guidance);
    SameGuidance(c, cat.generations[g].content);
    if e.Some? { return; }
    forall r ensures Ran(db0, AskTxs(c0, g, r)[..2], cat.Tables()) { RanNext(db0, AskTxs(c0, g, r), 1, db1, cat.Tables()); }
    n := 2;
  }

  lemma SameGuidance(c: Content, d: Content)
    requires d.sources == c.sources && d.attached == c.attached
    ensures HierarchyOf(d) == HierarchyOf(c)
  {
  }

  /** Declares the hierarchy and hands out the one capability batch, over all sources. */
  method MakeCapabilityBatch(cat: Catalog, g: GenerationId, maxTools: nat) returns (e: Option<Error>, ghost n: nat)
    requires Building(cat.Tables(), g)
    requires forall b :: b in cat.batches && b.generation == g ==> !b.kind.CapabilityBatch?
    modifies cat
    ensures IndexSound(cat.Tables()) && SameSources(old(cat.Tables()), cat.Tables())
    ensures e.Some? ==> cat.batches == old(cat.batches)
    ensures n <= 3 && forall r :: Ran(old(cat.Tables()), AskTxs(old(cat.generations[g].content), g, r)[..n], cat.Tables())
    ensures cat.artifacts == old(cat.artifacts)
    ensures e.None? ==>
              && n == 3 && Building(cat.Tables(), g) && AllHave(cat.generations[g].content, Guidance)
              && HierarchyOf(cat.generations[g].content) == HierarchyOf(old(cat.generations[g].content))
              && cat.batches == old(cat.batches)[CapabilityId(g) := Batch(true, CapabilityRequest(cat.generations[g].content.sources.Keys), None)]
  {
    hide IndexSound, Exec, Ran, SameSources, AllHave, HierarchyOf;
    ghost var db0, c0 := cat.Tables(), cat.generations[g].content;
    e, n := DeclareHierarchy(cat, g, maxTools);
    if e.Some? { return; }
    ghost var db1 := cat.Tables();
    var batches := CapabilityWork(g, cat.generations[g].content);
    SourcesKept(db0, db1, g);
    CapabilityKeeps(db1, g);
    e := cat.PutEnrichmentBatches(batches);
    if e.Some? { return; }
    PutBatchesOnly(db1, batches);
    SameSourcesTransitive(db0, db1, cat.Tables());
    forall r ensures Ran(db0, AskTxs(c0, g, r)[..3], cat.Tables()) { RanNext(db0, AskTxs(c0, g, r), 2, db1, cat.Tables()); }
    n := 3;
  }

  lemma SourcesKept(a: Db, b: Db, g: GenerationId)
    requires SameSources(a, b) && g in a.generations
    ensures g in b.generations && b.generations[g].content.sources == a.generations[g].content.sources
  {
  }

  /** A capability batch over all sources, each with its guidance, while no tool batch is pending. */
  ghost predicate CapabilityHandedOut(db: Db, g: GenerationId) {
    && g in db.generations && AllHave(db.generations[g].content, Guidance) && CapabilityId(g) in db.batches
    && db.batches[CapabilityId(g)].request == CapabilityRequest(db.generations[g].content.sources.Keys)
    && (forall b :: b in db.batches && b.generation == g && b.kind.CapabilityBatch? ==> b == CapabilityId(g))
    && forall b :: b in db.batches && b.generation == g && b.kind.ToolBatch? ==> db.batches[b].accepted.Some?
  }

  /** The state is that after some of the writes that hand out the capability batch. */
  ghost predicate Asking(a: Db, b: Db, g: GenerationId) {
    g in a.generations && exists n: nat, r :: n <= |AskTxs(a.generations[g].content, g, r)| && Ran(a, AskTxs(a.generations[g].content, g, r)[..n], b)
  }

  /** The state is that after some of the writes of the capability submission that was accepted before. */
  ghost predicate Recapping(a: Db, b: Db, g: GenerationId) {
    exists response, n :: CapabilityCut(a, CapabilityId(g), response, n, b)
  }

  /** Makes the capability batch once no tool batch is pending, or repairs it if it exists. */
  method PrepareCapabilityReconciliation(cat: Catalog, g: GenerationId, maxTools: nat, choose: set<Artifact> -> Artifact, valid: bool)
    returns (e: Option<Error>)
    requires IndexSound(cat.Tables())
    modifies cat
    ensures IndexSound(cat.Tables()) && SameSources(old(cat.Tables()), cat.Tables())
    ensures CapabilityId(g) in cat.batches && !HasBatch(old(cat.batches), g, CapabilityBatch) ==> CapabilityHandedOut(cat.Tables(), g)
    ensures e.None? && !HasBatch(old(cat.batches), g, CapabilityBatch) ==>
              && CapabilityHandedOut(cat.Tables(), g) && g in old(cat.generations)
              && var c := old(cat.generations[g].content);
                 Ran(old(cat.Tables()), AskTxs(c, g, Reusable(old(cat.artifacts), HierarchyOf(c), choose)), cat.Tables())
    ensures !HasBatch(old(cat.batches), g, CapabilityBatch) ==> cat.Tables() == old(cat.Tables()) || Asking(old(cat.Tables()), cat.Tables(), g)
    ensures HasBatch(old(cat.batches), g, CapabilityBatch) ==>
              cat.Tables() == old(cat.Tables()) || Recapping(old(cat.Tables()), cat.Tables(), g)
    ensures e.None? && AcceptedCapability(old(cat.batches), g).Some? ==>
              CapabilityRepaired(old(cat.Tables()), CapabilityId(g), AcceptedCapability(old(cat.batches), g).value, cat.Tables())
  {
    hide IndexSound, Exec, Ran, SameSources, AllHave, CapabilityRepaired, CapabilityCut, AskTxs, HierarchyOf, Reusable;
    ghost var db0, n := cat.Tables(), 0;
    SameSourcesReflexive(db0);
    e := StagingError(cat.Tables(), g);
    if e.Some? { return; }
    if HasBatch(cat.batches, g, CapabilityBatch) {
      e, n := RepairCapabilityBatch(cat, g, valid);
      return;
    }
    if exists b :: b in cat.batches && b.generation == g && b.kind.ToolBatch? && cat.batches[b].accepted.None? {
      return Some(GenerationIncomplete);
    }
    ghost var c := cat.generations[g].content;
    ghost var found := Reusable(cat.artifacts, HierarchyOf(c), choose);
    e, n := MakeCapabilityBatch(cat, g, maxTools);
    if e.Some? { return; }
    e, n := ReuseHierarchy(cat, g, choose, db0);
    assert AskTxs(c, g, found)[..|AskTxs(c, g, found)|] == AskTxs(c, g, found);
  }

  lemma AcceptedStaysOut(db: Db, g: GenerationId, response: Response)
    requires CapabilityHandedOut(db, g) && Exec(db, AcceptBatch(CapabilityId(g), response)).Ok?
    ensures CapabilityHandedOut(Exec(db, AcceptBatch(CapabilityId(g), response)).value, g)
  {
  }

  lemma HierarchyStaysOut(a: Db, b: Db, g: GenerationId)
    requires CapabilityHandedOut(a, g) && SameSources(a, b) && b.batches == a.batches
    requires a.generations[g].content.attached.Keys <= b.generations[g].content.attached.Keys
    ensures CapabilityHandedOut(b, g)
  {
  }

  /** A hierarchy stored for the same guidance is accepted at once. */
  method ReuseHierarchy(cat: Catalog, g: GenerationId, choose: set<Artifact> -> Artifact, ghost db0: Db) returns (e: Option<Error>, ghost n: nat)
    requires Building(cat.Tables(), g) && SameSources(db0, cat.Tables()) && CapabilityHandedOut(cat.Tables(), g)
    requires g in db0.generations && cat.artifacts == db0.artifacts
    requires HierarchyOf(cat.generations[g].content) == HierarchyOf(db0.generations[g].content)
    requires forall r :: Ran(db0, AskTxs(db0.generations[g].content, g, r)[..3], cat.Tables())
    modifies cat
    ensures IndexSound(cat.Tables()) && SameSources(db0, cat.Tables()) && CapabilityHandedOut(cat.Tables(), g)
    ensures var c := db0.generations[g].content;
            var txs := AskTxs(c, g, Reusable(db0.artifacts, HierarchyOf(c), choose));
            n <= |txs| && Ran(db0, txs[..n], cat.Tables()) && (e.None? ==> n == |txs|)
  {
    hide IndexSound, Exec, Ran, SameSources, CapabilityHandedOut, HierarchyOf, Reusable, HoldTxs;
    SourcesKept(db0, cat.Tables(), g);
    ghost var c := db0.generations[g].content;
    var spec := HierarchyOf(cat.generations[g].content);
    ghost var txs := AskTxs(c, g, Reusable(db0.artifacts, HierarchyOf(c), choose));
    var found := cat.FindReusableArtifact(spec, choose);
    n := 3;
    if found.None? { return None, 3; }
    var response := CapabilityResponse(found.value.payload, []);
    ghost var db1 := cat.Tables();
    e := cat.AcceptEnrichmentBatch(CapabilityId(g), response);
    if e.Some? { return; }
    AcceptKeeps(db1, CapabilityId(g), response);
    AcceptOnly(db1, CapabilityId(g), response);
    AcceptedStaysOut(db1, g, response);
    ghost var db2, m := cat.Tables(), 0;
    RanNext(db0, txs, 3, db1, db2);
    n := 4;
    SameSourcesTransitive(db0, db1, db2);
    SourcesKept(db0, db2, g);
    e, m := HoldHierarchy(cat, g, spec, found.value);
    SameSourcesTransitive(db0, db2, cat.Tables());
    HierarchyStaysOut(db2, cat.Tables(), g);
    assert txs[4..4 + m] == HoldTxs(g, spec, found.value, c.sources)[..m];
    RanMore(db0, txs, 4, m, db2, cat.Tables());
    n := 4 + m;
  }
}
