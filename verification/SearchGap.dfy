/**
 A refresh that is cut off between the two vectors of its last tool leaves a generation that can be
 enriched and promoted, and that no search can use afterwards: the run, write by write.
 */
module SearchGap {
  import opened Common
  import opened CatalogModel
  import opened CatalogTables
  import opened IndexInvariant
  import opened IndexBuild
  import opened IndexEnrichment
  import opened ToolPreparation
  import opened CapabilityPreparation
  import opened Submission

  const T := Tool("s", "t")
  const Src := map[T := "contract"]
  const Lex := Artifact(LexicalSpec("words"), "words")
  const Desc := Artifact(EmbeddingSpec("p", "description"), "vector")
  const Guide := Artifact(GuidanceSpec("contract"), "guidance")
  const Rich := Artifact(EmbeddingSpec("p", EnrichedText(T, "guidance")), "vector")
  const Tree := Artifact(HierarchySpec(map[T := "guidance"]), "tree")
  const Answer := [ToolAnswer(T, "purpose", [], "guidance")]
  const Response1 := ToolResponse(Answer)
  const Response2 := CapabilityResponse("tree", [])
  const B1 := BatchId("g", ToolBatch, Ordinal(0))
  const B2 := BatchId("g", CapabilityBatch, Global)

  /** A text that tells the tools apart: the length of the server id, the id and the name. */
  function EnrichedText(t: Tool, guidance: string): string {
    seq(|t.server|, _ => 'x') + "|" + t.server + t.name
  }

  /** Code outside the model that does all that is asked of it. */
  ghost function Oracle(): Tools {
    Tools("p", (contract: string) => Projections("words", "description", "schema"), (text: string) => Some("vector"),
          (t: Tool, guidance: string) => EnrichedText(t, guidance),
          (s: set<Artifact>) => if s == {} then Lex else var a :| a in s; a)
  }

  lemma TextNamesTool(t: Tool, x: string, u: Tool, y: string)
    requires EnrichedText(t, x) == EnrichedText(u, y)
    ensures t == u
  {
    var a, b := EnrichedText(t, x), EnrichedText(u, y);
    var m, n := |t.server|, |u.server|;
    assert a[m] == '|' && b[n] == '|';
    assert forall i :: 0 <= i < m ==> a[i] == 'x';
    assert forall i :: 0 <= i < n ==> b[i] == 'x';
    assert m == n;
    assert a[m + 1..m + 1 + m] == t.server && b[n + 1..n + 1 + n] == u.server;
    assert a[m + 1 + m..] == t.name && b[n + 1 + n..] == u.name;
  }

  lemma OracleIsFaithful()
    ensures Faithful(Oracle())
  {
    hide EnrichedText;
    var o := Oracle();
    forall t, u, x, y | o.enrichedText(t, x) == o.enrichedText(u, y) ensures t == u {
      TextNamesTool(t, x, u, y);
    }
  }

  function Met(f: Fingerprint): Requirement { Requirement(f, Some(f), true) }
  function Unmet(f: Fingerprint): Requirement { Requirement(f, None, false) }

  const LexKey := ArtifactKey(ToolSlot(Lexical, T))
  const DescKey := ArtifactKey(ToolSlot(Description, T))
  const GuideKey := ArtifactKey(ToolSlot(Guidance, T))
  const RichKey := ArtifactKey(ToolSlot(Enriched, T))
  const Gate := OfGate("p", "contract")

  /** One generation, with the given status, rows, artifacts and batches, and no dirty markers. */
  function Tables(status: Status, c: Content, artifacts: set<Artifact>, batches: map<BatchId, Batch>): Db {
    Db(map["g" := Generation(status, "h", if status == Active then Some(c.sources) else None, c)], artifacts, batches, map[])
  }

  /** The source and its lexical record. */
  function Step1(): Db {
    Tables(Staging, Content(map[T := Member("contract", Some("contract"), true)], Src, map[LexKey := Met(OfSpec(Lex.spec))],
                           map[ToolSlot(Lexical, T) := Lex], map[T := "words"]), {Lex}, map[])
  }

  /** The description vector as well; the schema vector has not been asked for. */
  function CutOff(): Db {
    var c := Step1().generations["g"].content;
    Tables(Staging, c.(requirements := c.requirements[DescKey := Met(OfSpec(Desc.spec))],
                      attached := c.attached[ToolSlot(Description, T) := Desc]), {Lex, Desc}, map[])
  }

  /** The tool batch has been handed out. */
  function Waiting(): Db {
    var c := CutOff().generations["g"].content;
    Tables(Staging, c.(requirements := c.requirements[CapabilityGate := Unmet(OfSources(Src))]
                                                    [GuideKey := Unmet(OfSpec(Guide.spec))][EnrichedGate(T) := Unmet(Gate)]),
          {Lex, Desc}, map[B1 := Batch(true, ToolRequest([(T, "contract")]), None)])
  }

  /** Its answers have been accepted and the guidance attached. */
  function Answered(): Db {
    var c := Waiting().generations["g"].content;
    Tables(Staging, c.(requirements := c.requirements[GuideKey := Met(OfSpec(Guide.spec))],
                      attached := c.attached[ToolSlot(Guidance, T) := Guide]),
          {Lex, Desc, Guide}, map[B1 := Batch(true, ToolRequest([(T, "contract")]), Some(Response1))])
  }

  /** The enriched vector is attached and its gate satisfied. */
  function Enrichment(): Db {
    var c := Answered().generations["g"].content;
    Tables(Staging, c.(requirements := c.requirements[RichKey := Met(OfSpec(Rich.spec))][EnrichedGate(T) := Met(Gate)],
                      attached := c.attached[ToolSlot(Enriched, T) := Rich]),
          {Lex, Desc, Guide, Rich}, Answered().batches)
  }

  /** The capability batch has been handed out and its response accepted. */
  function Reconciling(): Db {
    var c := Enrichment().generations["g"].content;
    Tables(Staging, c.(requirements := c.requirements[ArtifactKey(HierarchySlot) := Unmet(OfSpec(Tree.spec))]),
          {Lex, Desc, Guide, Rich}, Enrichment().batches[B2 := Batch(true, CapabilityRequest({T}), Some(Response2))])
  }

  function Reconciled(): Db {
    var c := Reconciling().generations["g"].content;
    Tables(Staging, c.(requirements := c.requirements[ArtifactKey(HierarchySlot) := Met(OfSpec(Tree.spec))]
                                                    [CapabilityGate := Met(OfSources(Src))],
                      attached := c.attached[HierarchySlot := Tree]),
          {Lex, Desc, Guide, Rich, Tree}, Reconciling().batches)
  }

  function Final(): Db {
    Tables(Active, Reconciled().generations["g"].content, Reconciled().artifacts, Reconciled().batches)
  }

  // How single writes change these tables.

  lemma Requires(c: Content, artifacts: set<Artifact>, batches: map<BatchId, Batch>, key: Key, f: Fingerprint)
    ensures Exec(Tables(Staging, c, artifacts, batches), RequireDependency("g", key, f)) ==
            Ok(Tables(Staging, Required(c, key, f), artifacts, batches))
  {
    OneRow(c, Required(c, key, f), artifacts, batches);
  }

  lemma Fulfills(c: Content, artifacts: set<Artifact>, batches: map<BatchId, Batch>, slot: Slot, a: Artifact)
    requires ArtifactKey(slot) in c.requirements
    ensures Ran(Tables(Staging, c, artifacts, batches), FulfillTxs("g", slot, a.spec, a),
                Tables(Staging, Satisfied(AttachedTo(c, slot, a), ArtifactKey(slot), OfSpec(a.spec)), artifacts, batches))
  {
    var c1 := AttachedTo(c, slot, a);
    var c2 := Satisfied(c1, ArtifactKey(slot), OfSpec(a.spec));
    var tx1, tx2 := AttachArtifact("g", slot, a), SatisfyDependency("g", ArtifactKey(slot), OfSpec(a.spec));
    OneRow(c, c1, artifacts, batches);
    Satisfies(c1, artifacts, batches, ArtifactKey(slot), OfSpec(a.spec));
    RanOne(Tables(Staging, c1, artifacts, batches), tx2, Tables(Staging, c2, artifacts, batches));
    RunOn(Tables(Staging, c, artifacts, batches), tx1, Tables(Staging, c1, artifacts, batches), [tx2], Tables(Staging, c2, artifacts, batches));
    assert [tx1] + [tx2] == FulfillTxs("g", slot, a.spec, a);
  }

  lemma Satisfies(c: Content, artifacts: set<Artifact>, batches: map<BatchId, Batch>, key: Key, f: Fingerprint)
    requires key in c.requirements
    ensures Exec(Tables(Staging, c, artifacts, batches), SatisfyDependency("g", key, f)) ==
            Ok(Tables(Staging, Satisfied(c, key, f), artifacts, batches))
  {
    OneRow(c, Satisfied(c, key, f), artifacts, batches);
  }

  lemma Stores(c: Content, artifacts: set<Artifact>, batches: map<BatchId, Batch>, a: Artifact)
    ensures Exec(Tables(Staging, c, artifacts, batches), PutArtifact(a)) == Ok(Tables(Staging, c, artifacts + {a}, batches))
  {
  }

  lemma Hands(c: Content, artifacts: set<Artifact>, batches: map<BatchId, Batch>, b: BatchId, batch: Batch)
    requires b.generation == "g" && b !in batches
    ensures Exec(Tables(Staging, c, artifacts, batches), PutBatches(map[b := batch])) ==
            Ok(Tables(Staging, c, artifacts, batches[b := batch]))
  {
    assert map[b := batch] + batches == batches[b := batch];
  }

  lemma Accepts(c: Content, artifacts: set<Artifact>, batches: map<BatchId, Batch>, b: BatchId, r: Response)
    requires b.generation == "g" && b in batches && batches[b].accepted.None?
    ensures Exec(Tables(Staging, c, artifacts, batches), AcceptBatch(b, r)) ==
            Ok(Tables(Staging, c, artifacts, batches[b := batches[b].(accepted := Some(r))]))
  {
  }

  lemma OneRow(c: Content, d: Content, artifacts: set<Artifact>, batches: map<BatchId, Batch>)
    ensures Rewritten(Tables(Staging, c, artifacts, batches), "g", d) == Tables(Staging, d, artifacts, batches)
  {
    assert map["g" := Generation(Staging, "h", None, c)]["g" := Generation(Staging, "h", None, d)] == map["g" := Generation(Staging, "h", None, d)];
  }

  lemma RunOn(a: Db, tx: Tx, b: Db, rest: seq<Tx>, c: Db)
    requires Exec(a, tx) == Ok(b) && Ran(b, rest, c)
    ensures Ran(a, [tx] + rest, c)
  {
    hide Exec;
    assert ([tx] + rest)[1..] == rest;
  }

  /** Declaring, storing and fulfilling a requirement that is new. */
  lemma Adds(c: Content, artifacts: set<Artifact>, batches: map<BatchId, Batch>, slot: Slot, a: Artifact)
    requires ArtifactKey(slot) !in c.requirements
    ensures Ran(Tables(Staging, c, artifacts, batches),
                [RequireDependency("g", ArtifactKey(slot), OfSpec(a.spec)), PutArtifact(a)] + FulfillTxs("g", slot, a.spec, a),
                Tables(Staging, c.(requirements := c.requirements[ArtifactKey(slot) := Met(OfSpec(a.spec))],
                                   attached := c.attached[slot := a]), artifacts + {a}, batches))
  {
    hide Exec;
    var key, f := ArtifactKey(slot), OfSpec(a.spec);
    var c1 := Required(c, key, f);
    var c2 := Satisfied(AttachedTo(c1, slot, a), key, f);
    assert c2.requirements == c.requirements[key := Met(f)];
    Requires(c, artifacts, batches, key, f);
    Stores(c1, artifacts, batches, a);
    Fulfills(c1, artifacts + {a}, batches, slot, a);
    var txs := FulfillTxs("g", slot, a.spec, a);
    RunOn(Tables(Staging, c1, artifacts, batches), PutArtifact(a), Tables(Staging, c1, artifacts + {a}, batches), txs,
          Tables(Staging, c2, artifacts + {a}, batches));
    RunOn(Tables(Staging, c, artifacts, batches), RequireDependency("g", key, f), Tables(Staging, c1, artifacts, batches),
          [PutArtifact(a)] + txs, Tables(Staging, c2, artifacts + {a}, batches));
    assert [RequireDependency("g", key, f)] + ([PutArtifact(a)] + txs) == [RequireDependency("g", key, f), PutArtifact(a)] + txs;
  }

  // The run.

  const Begun := EmptyContent.(members := map[T := Member("contract", Some("contract"), true)], sources := Src)

  lemma RunsToBegun()
    ensures Ran(EmptyDb, [ReconcileStaging("h"), CreateStaging("g", "h")] + SourceTxs("g", T, "contract"), Tables(Staging, Begun, {}, map[]))
  {
    var d0 := Tables(Staging, EmptyContent, {}, map[]);
    var c1 := SourceRequired(EmptyContent, T, "contract");
    var d1, d2 := Tables(Staging, c1, {}, map[]), Tables(Staging, Begun, {}, map[]);
    var tx0, tx1, tx2, tx3 := ReconcileStaging("h"), CreateStaging("g", "h"), RequireSource("g", T, "contract"), PutSource("g", T, "contract", true);
    assert Exec(EmptyDb, tx0) == Ok(EmptyDb) by { assert SupersedeStale(map[], "h") == map[]; }
    assert Exec(EmptyDb, tx1) == Ok(d0);
    OneRow(EmptyContent, c1, {}, map[]);
    assert SourcePut(c1, T, "contract", true) == Begun;
    OneRow(c1, Begun, {}, map[]);
    RanOne(d1, tx3, d2);
    RunOn(d0, tx2, d1, [tx3], d2);
    RunOn(EmptyDb, tx1, d0, [tx2] + [tx3], d2);
    RunOn(EmptyDb, tx0, EmptyDb, [tx1] + ([tx2] + [tx3]), d2);
    assert [tx0] + ([tx1] + ([tx2] + [tx3])) == [tx0, tx1] + SourceTxs("g", T, "contract");
  }

  lemma RunsToStep1()
    ensures Ran(Tables(Staging, Begun, {}, map[]), LexicalTxs("g", T, "words"), Step1())
  {
    var key, f := LexKey, OfSpec(Lex.spec);
    var c1 := Required(Begun, key, f);
    var c2 := LexicalPut(c1, T, "words");
    var tx1, tx2, tx3 := RequireDependency("g", key, f), PutArtifact(Lex), PutLexical("g", T, "words");
    var txs := FulfillTxs("g", ToolSlot(Lexical, T), Lex.spec, Lex);
    Requires(Begun, {}, map[], key, f);
    Stores(c1, {}, map[], Lex);
    assert {} + {Lex} == {Lex};
    OneRow(c1, c2, {Lex}, map[]);
    Fulfills(c2, {Lex}, map[], ToolSlot(Lexical, T), Lex);
    assert Satisfied(AttachedTo(c2, ToolSlot(Lexical, T), Lex), key, f) == Step1().generations["g"].content;
    RunOn(Tables(Staging, c1, {Lex}, map[]), tx3, Tables(Staging, c2, {Lex}, map[]), txs, Step1());
    RunOn(Tables(Staging, c1, {}, map[]), tx2, Tables(Staging, c1, {Lex}, map[]), [tx3] + txs, Step1());
    RunOn(Tables(Staging, Begun, {}, map[]), tx1, Tables(Staging, c1, {}, map[]), [tx2] + ([tx3] + txs), Step1());
    assert [tx1] + ([tx2] + ([tx3] + txs)) == LexicalTxs("g", T, "words");
  }

  lemma RunsToCut()
    ensures Ran(Step1(), VectorTxs({Lex}, "g", Description, T, "description", Oracle()), CutOff())
  {
    hide Exec, Ran;
    DescriptionIsNew();
    Adds(Step1().generations["g"].content, {Lex}, map[], ToolSlot(Description, T), Desc);
    assert {Lex} + {Desc} == {Lex, Desc};
  }

  lemma DescriptionIsNew()
    ensures VectorTxs({Lex}, "g", Description, T, "description", Oracle())
         == [RequireDependency("g", DescKey, OfSpec(Desc.spec)), PutArtifact(Desc)] + FulfillTxs("g", ToolSlot(Description, T), Desc.spec, Desc)
  {
    assert (set a | a in {Lex} && a.spec == Desc.spec) == {};
  }

  /** The writes of an uninterrupted refresh up to the batches: one server with one tool, in a new catalog. */
  ghost function RefreshTxs(): seq<Tx> {
    [ReconcileStaging("h"), CreateStaging("g", "h")] + PopulateTxs({}, "g", T, "contract", Oracle())
  }

  /** The first thirteen of them, after which the schema vector would be declared. */
  lemma RunsToCutOff()
    ensures Ran(EmptyDb, RefreshTxs()[..13], CutOff())
    ensures |RefreshTxs()| > 13 && RefreshTxs()[13] == RequireDependency("g", ArtifactKey(ToolSlot(InputSchema, T)), OfSpec(EmbeddingSpec("p", "schema")))
  {
    hide Exec, Ran, CutOff, Step1, VectorTxs, LexicalTxs;
    var first, words := [ReconcileStaging("h"), CreateStaging("g", "h")] + SourceTxs("g", T, "contract"), LexicalTxs("g", T, "words");
    var vector := VectorTxs({Lex}, "g", Description, T, "description", Oracle());
    RunsToBegun();
    RunsToStep1();
    RunsToCut();
    RanAppend(EmptyDb, first, Tables(Staging, Begun, {}, map[]), words, Step1());
    RanAppend(EmptyDb, first + words, Step1(), vector, CutOff());
    RefreshBegins();
  }

  lemma RefreshBegins()
    ensures |RefreshTxs()| > 13 && RefreshTxs()[13] == RequireDependency("g", ArtifactKey(ToolSlot(InputSchema, T)), OfSpec(EmbeddingSpec("p", "schema")))
    ensures RefreshTxs()[..13] == [ReconcileStaging("h"), CreateStaging("g", "h")] + SourceTxs("g", T, "contract") + LexicalTxs("g", T, "words")
                                  + VectorTxs({Lex}, "g", Description, T, "description", Oracle())
  {
    DescriptionIsNew();
    assert {} + {Lex} == {Lex};
  }

  const Handed := Batch(true, ToolRequest([(T, "contract")]), None)

  /** The writes that hand out the tool batch, as a preparation makes them in this state. */
  ghost function HandOutTxs(): seq<Tx> {
    DeclareTxs(Src, CutOff().artifacts, "g", [(T, "contract")], Oracle()) + [PutBatches(ToolBatches("g", [[(T, "contract")]]))]
  }

  lemma HandOutWrites()
    ensures HandOutTxs() == [RequireDependency("g", CapabilityGate, OfSources(Src)), RequireDependency("g", GuideKey, OfSpec(Guide.spec)),
                             RequireDependency("g", EnrichedGate(T), Gate), PutBatches(map[B1 := Handed])]
  {
    hide CutOff, ToolBatches, PrepareToolTxs;
    var order, arts := [(T, "contract")], {Lex, Desc};
    assert order[..0] == [];
    assert PrepareTxs(arts, "g", order[..0], Oracle()) == [] && StoredByAll(arts, order[..0], Oracle()) == arts;
    HandOutBatch();
    NoGuidanceYet();
  }

  lemma HandOutBatch()
    ensures ToolBatches("g", [[(T, "contract")]]) == map[B1 := Handed]
  {
  }

  lemma NoGuidanceYet()
    ensures PrepareToolTxs({Lex, Desc}, "g", T, "contract", Oracle())
         == [RequireDependency("g", GuideKey, OfSpec(Guide.spec)), RequireDependency("g", EnrichedGate(T), Gate)]
    ensures CutOff().artifacts == {Lex, Desc}
  {
    assert (set a | a in {Lex, Desc} && a.spec == Guide.spec) == {};
  }

  lemma RunsToWaiting()
    ensures Ran(CutOff(), HandOutTxs(), Waiting())
  {
    hide Exec, Ran;
    HandOutWrites();
    var arts, c := {Lex, Desc}, CutOff().generations["g"].content;
    var c1 := Required(c, CapabilityGate, OfSources(Src));
    var c2 := Required(c1, GuideKey, OfSpec(Guide.spec));
    var c3 := Required(c2, EnrichedGate(T), Gate);
    Requires(c, arts, map[], CapabilityGate, OfSources(Src));
    Requires(c1, arts, map[], GuideKey, OfSpec(Guide.spec));
    Requires(c2, arts, map[], EnrichedGate(T), Gate);
    Hands(c3, arts, map[], B1, Handed);
    var tx1, tx2 := RequireDependency("g", CapabilityGate, OfSources(Src)), RequireDependency("g", GuideKey, OfSpec(Guide.spec));
    var tx3, tx4 := RequireDependency("g", EnrichedGate(T), Gate), PutBatches(map[B1 := Handed]);
    RanOne(Tables(Staging, c3, arts, map[]), tx4, Waiting());
    RunOn(Tables(Staging, c2, arts, map[]), tx3, Tables(Staging, c3, arts, map[]), [tx4], Waiting());
    RunOn(Tables(Staging, c1, arts, map[]), tx2, Tables(Staging, c2, arts, map[]), [tx3] + [tx4], Waiting());
    RunOn(CutOff(), tx1, Tables(Staging, c1, arts, map[]), [tx2] + ([tx3] + [tx4]), Waiting());
    assert [tx1] + ([tx2] + ([tx3] + [tx4])) == HandOutTxs();
  }

  lemma RunsToAnswered()
    ensures Ran(Waiting(), [AcceptBatch(B1, Response1)] + GuidanceTxs("g", T, "contract", "guidance"), Answered())
  {
    hide Exec, Ran;
    var arts, batches, c := {Lex, Desc}, Answered().batches, Waiting().generations["g"].content;
    var tx1, tx2, txs := AcceptBatch(B1, Response1), PutArtifact(Guide), FulfillTxs("g", ToolSlot(Guidance, T), Guide.spec, Guide);
    Accepts(c, arts, Waiting().batches, B1, Response1);
    assert Waiting().batches[B1 := Handed.(accepted := Some(Response1))] == batches;
    Stores(c, arts, batches, Guide);
    assert arts + {Guide} == {Lex, Desc, Guide};
    Fulfills(c, arts + {Guide}, batches, ToolSlot(Guidance, T), Guide);
    assert Satisfied(AttachedTo(c, ToolSlot(Guidance, T), Guide), GuideKey, OfSpec(Guide.spec)).requirements == c.requirements[GuideKey := Met(OfSpec(Guide.spec))];
    RunOn(Tables(Staging, c, arts, batches), tx2, Tables(Staging, c, arts + {Guide}, batches), txs, Answered());
    RunOn(Waiting(), tx1, Tables(Staging, c, arts, batches), [tx2] + txs, Answered());
    assert [tx1] + ([tx2] + txs) == [tx1] + GuidanceTxs("g", T, "contract", "guidance");
  }

  lemma RunsToEnrichment()
    ensures Ran(Answered(), EnrichTxs("g", T, "contract", "guidance", Rich, Oracle()), Enrichment())
  {
    hide Exec, Ran;
    var arts, batches, c := Answered().artifacts, Answered().batches, Answered().generations["g"].content;
    Adds(c, arts, batches, ToolSlot(Enriched, T), Rich);
    var c1 := c.(requirements := c.requirements[RichKey := Met(OfSpec(Rich.spec))], attached := c.attached[ToolSlot(Enriched, T) := Rich]);
    assert arts + {Rich} == {Lex, Desc, Guide, Rich};
    Satisfies(c1, arts + {Rich}, batches, EnrichedGate(T), Gate);
    var d1, tx := Tables(Staging, c1, arts + {Rich}, batches), SatisfyDependency("g", EnrichedGate(T), Gate);
    RanOne(d1, tx, Enrichment());
    RanAppend(Answered(), [RequireDependency("g", RichKey, OfSpec(Rich.spec)), PutArtifact(Rich)]
                          + FulfillTxs("g", ToolSlot(Enriched, T), Rich.spec, Rich), d1, [tx], Enrichment());
  }

  const Asked := Batch(true, CapabilityRequest({T}), None)

  lemma GateAsBefore()
    ensures var c := Enrichment().generations["g"].content; Required(c, CapabilityGate, OfSources(Src)) == c
  {
    var c := Enrichment().generations["g"].content;
    assert c.requirements[CapabilityGate] == Unmet(OfSources(Src));
    assert Required(c, CapabilityGate, OfSources(Src)).requirements == c.requirements;
  }

  /** The requirement of the hierarchy is declared. */
  function Declared(): Content {
    Required(Enrichment().generations["g"].content, ArtifactKey(HierarchySlot), OfSpec(Tree.spec))
  }

  /** The writes that hand out the capability batch, for which no hierarchy is stored. */
  function AskingTxs(): seq<Tx> {
    AskTxs(Enrichment().generations["g"].content, "g", None)
  }

  lemma AskingWrites()
    ensures AskingTxs() == [RequireDependency("g", CapabilityGate, OfSources(Src)), RequireDependency("g", ArtifactKey(HierarchySlot), OfSpec(Tree.spec)),
                            PutBatches(map[B2 := Asked])]
    ensures Reusable(Enrichment().artifacts, Tree.spec, Oracle().choose).None?
  {
    hide Enrichment;
    EnrichmentRows();
    var c := Enrichment().generations["g"].content;
    assert c.attached[ToolSlot(Guidance, T)] == Guide;
    assert c.sources.Keys == {T};
    assert GuidanceItems(c, c.sources.Keys) == map[T := "guidance"];
    assert CapabilityWork("g", c) == map[B2 := Asked];
    assert (set a | a in {Lex, Desc, Guide, Rich} && a.spec == Tree.spec) == {};
  }

  lemma RunsToDeclared()
    ensures Ran(Enrichment(), [RequireDependency("g", CapabilityGate, OfSources(Src)), RequireDependency("g", ArtifactKey(HierarchySlot), OfSpec(Tree.spec))],
                Tables(Staging, Declared(), Enrichment().artifacts, Enrichment().batches))
  {
    hide Exec, Ran;
    var arts, batches, c := Enrichment().artifacts, Enrichment().batches, Enrichment().generations["g"].content;
    var key, f := ArtifactKey(HierarchySlot), OfSpec(Tree.spec);
    var tx1, tx2 := RequireDependency("g", CapabilityGate, OfSources(Src)), RequireDependency("g", key, f);
    Requires(c, arts, batches, CapabilityGate, OfSources(Src));
    GateAsBefore();
    Requires(c, arts, batches, key, f);
    RanOne(Enrichment(), tx2, Tables(Staging, Declared(), arts, batches));
    RunOn(Enrichment(), tx1, Enrichment(), [tx2], Tables(Staging, Declared(), arts, batches));
    assert [tx1] + [tx2] == [tx1, tx2];
  }

  /** The capability batch has been handed out. */
  function Asking(): Db {
    Tables(Staging, Declared(), Enrichment().artifacts, Enrichment().batches[B2 := Asked])
  }

  lemma RunsToAsking()
    ensures Ran(Enrichment(), AskingTxs(), Asking())
  {
    hide Exec, Ran, Enrichment, AskingTxs, Declared;
    EnrichmentRows();
    var d := Tables(Staging, Declared(), Enrichment().artifacts, Enrichment().batches);
    var first := [RequireDependency("g", CapabilityGate, OfSources(Src)), RequireDependency("g", ArtifactKey(HierarchySlot), OfSpec(Tree.spec))];
    RunsToDeclared();
    AskingWrites();
    Hands(Declared(), Enrichment().artifacts, Enrichment().batches, B2, Asked);
    RanOne(d, PutBatches(map[B2 := Asked]), Asking());
    RanAppend(Enrichment(), first, d, [PutBatches(map[B2 := Asked])], Asking());
    assert first + [PutBatches(map[B2 := Asked])] == AskingTxs();
  }

  /** The response is accepted; it raises no questions. */
  lemma RunsToReconciling()
    ensures Ran(Asking(), [AcceptBatch(B2, Response2), PutBatches(ReviewBatches("g", []))], Reconciling())
  {
    hide Exec, Ran, Enrichment;
    EnrichmentRows();
    var batches := Enrichment().batches[B2 := Asked];
    Accepts(Declared(), Enrichment().artifacts, batches, B2, Response2);
    assert batches[B2 := Asked.(accepted := Some(Response2))] == Reconciling().batches;
    assert Declared().requirements == Reconciling().generations["g"].content.requirements;
    NoReviews();
    RanOne(Reconciling(), PutBatches(ReviewBatches("g", [])), Reconciling());
    RunOn(Asking(), AcceptBatch(B2, Response2), Reconciling(), [PutBatches(ReviewBatches("g", []))], Reconciling());
    assert [AcceptBatch(B2, Response2)] + [PutBatches(ReviewBatches("g", []))] == [AcceptBatch(B2, Response2), PutBatches(ReviewBatches("g", []))];
  }

  lemma NoReviews()
    ensures Exec(Reconciling(), PutBatches(ReviewBatches("g", []))) == Ok(Reconciling())
  {
    hide Reconciling;
    assert ReviewBatches("g", []) == map[];
    assert map[] + Reconciling().batches == Reconciling().batches;
  }

  lemma RunsToReconciled()
    ensures Ran(Reconciling(), HierarchyTxs("g", Tree.spec, "tree", Src), Reconciled())
  {
    hide Exec, Ran;
    var arts, batches, c := Reconciling().artifacts, Reconciling().batches, Reconciling().generations["g"].content;
    var txs, tx := FulfillTxs("g", HierarchySlot, Tree.spec, Tree), SatisfyDependency("g", CapabilityGate, OfSources(Src));
    Stores(c, arts, batches, Tree);
    assert arts + {Tree} == Reconciled().artifacts;
    Fulfills(c, arts + {Tree}, batches, HierarchySlot, Tree);
    var c1 := Satisfied(AttachedTo(c, HierarchySlot, Tree), ArtifactKey(HierarchySlot), OfSpec(Tree.spec));
    Satisfies(c1, arts + {Tree}, batches, CapabilityGate, OfSources(Src));
    assert Satisfied(c1, CapabilityGate, OfSources(Src)).requirements == Reconciled().generations["g"].content.requirements;
    var d1, d2 := Tables(Staging, c, arts + {Tree}, batches), Tables(Staging, c1, arts + {Tree}, batches);
    RanOne(d2, tx, Reconciled());
    RunOn(Reconciling(), PutArtifact(Tree), d1, txs, d2);
    RanAppend(Reconciling(), [PutArtifact(Tree)] + txs, d2, [tx], Reconciled());
    assert [PutArtifact(Tree)] + txs + [tx] == HierarchyTxs("g", Tree.spec, "tree", Src);
  }

  /** All requirements but the open ones are fulfilled as expected. */
  ghost predicate MetBut(r: map<Key, Requirement>, open: set<Key>) {
    forall k :: k in r && k !in open ==> r[k].complete && r[k].actual == Some(r[k].expected)
  }

  lemma Meets(r: map<Key, Requirement>, open: set<Key>, k: Key, f: Fingerprint, left: set<Key>)
    requires MetBut(r, open) && open <= left + {k}
    ensures MetBut(r[k := Met(f)], left)
  {
  }

  lemma Leaves(r: map<Key, Requirement>, open: set<Key>, k: Key, f: Fingerprint)
    requires MetBut(r, open)
    ensures MetBut(r[k := Unmet(f)], open + {k})
  {
  }

  function Needs(db: Db): map<Key, Requirement>
    requires "g" in db.generations
  {
    db.generations["g"].content.requirements
  }

  lemma MetWhenHandedOut()
    ensures MetBut(Needs(Waiting()), {CapabilityGate, GuideKey, EnrichedGate(T)})
  {
    hide MetBut;
    NothingNeeded();
    Meets(map[], {}, LexKey, OfSpec(Lex.spec), {});
    var r := map[LexKey := Met(OfSpec(Lex.spec))];
    assert map[][LexKey := Met(OfSpec(Lex.spec))] == r;
    Meets(r, {}, DescKey, OfSpec(Desc.spec), {});
    var r1 := r[DescKey := Met(OfSpec(Desc.spec))];
    Leaves(r1, {}, CapabilityGate, OfSources(Src));
    var r2 := r1[CapabilityGate := Unmet(OfSources(Src))];
    Leaves(r2, {} + {CapabilityGate}, GuideKey, OfSpec(Guide.spec));
    var r3 := r2[GuideKey := Unmet(OfSpec(Guide.spec))];
    Leaves(r3, {} + {CapabilityGate} + {GuideKey}, EnrichedGate(T), Gate);
    assert {} + {CapabilityGate} + {GuideKey} + {EnrichedGate(T)} == {CapabilityGate, GuideKey, EnrichedGate(T)};
  }

  lemma NothingNeeded()
    ensures MetBut(map[], {})
  {
  }

  lemma MetAtTheEnd()
    ensures MetBut(Needs(Reconciled()), {})
  {
    hide MetBut, CutOff;
    MetWhenHandedOut();
    Meets(Needs(Waiting()), {CapabilityGate, GuideKey, EnrichedGate(T)}, GuideKey, OfSpec(Guide.spec), {CapabilityGate, EnrichedGate(T)});
    Meets(Needs(Answered()), {CapabilityGate, EnrichedGate(T)}, RichKey, OfSpec(Rich.spec), {CapabilityGate, EnrichedGate(T)});
    Meets(Needs(Answered())[RichKey := Met(OfSpec(Rich.spec))], {CapabilityGate, EnrichedGate(T)}, EnrichedGate(T), Gate, {CapabilityGate});
    Leaves(Needs(Enrichment()), {CapabilityGate}, ArtifactKey(HierarchySlot), OfSpec(Tree.spec));
    Meets(Needs(Reconciling()), {CapabilityGate} + {ArtifactKey(HierarchySlot)}, ArtifactKey(HierarchySlot), OfSpec(Tree.spec), {CapabilityGate});
    Meets(Needs(Reconciling())[ArtifactKey(HierarchySlot) := Met(OfSpec(Tree.spec))], {CapabilityGate}, CapabilityGate, OfSources(Src), {});
  }

  lemma FinalIsReady()
    ensures MembersReady(Reconciled().generations["g"].content) && RequirementsReady(Reconciled().generations["g"].content)
  {
    MetAtTheEnd();
  }

  lemma OnlyStatusChanges(c: Content, artifacts: set<Artifact>, batches: map<BatchId, Batch>)
    ensures Promoted(Tables(Staging, c, artifacts, batches).generations, "g") == Tables(Active, c, artifacts, batches).generations
  {
  }

  lemma Promotes()
    ensures Exec(Reconciled(), Promote("g", "h")) == Ok(Final())
  {
    hide MembersReady, RequirementsReady;
    var c := Reconciled().generations["g"].content;
    FinalIsReady();
    OnlyStatusChanges(c, Reconciled().artifacts, Reconciled().batches);
    assert PromoteError(Reconciled(), "g", "h").None? by {
      AllComplete(c);
    }
  }

  lemma AllComplete(c: Content)
    requires MembersReady(c)
    ensures !exists t :: t in c.members && (!c.members[t].complete || c.members[t].actual.None? || t !in c.sources)
  {
  }

  /** The promoted generation was reconciled over a source, and fails the completeness test of every search. */
  lemma FinalFailsSearch()
    ensures Final().generations["g"].status == Active && T in ReconciledTools(Final(), "g")
    ensures !CountsMatch(Final().generations["g"].content)
  {
    hide ReconciledTools, CountsMatch, Reconciled;
    FinalBatches();
    NamesTool(Final());
    FinalRows();
    NoSchemas(Final().generations["g"].content);
  }

  lemma NamesTool(db: Db)
    requires B2 in db.batches && db.batches[B2].request == CapabilityRequest({T})
    ensures T in ReconciledTools(db, "g")
  {
    assert T in db.batches[B2].request.tools;
  }

  lemma NoSchemas(c: Content)
    requires c.attached.Keys == {ToolSlot(Lexical, T), ToolSlot(Description, T), ToolSlot(Guidance, T), ToolSlot(Enriched, T), HierarchySlot}
    requires c.sources == Src
    ensures !CountsMatch(c)
  {
    assert Indexed(c, InputSchema) == {};
    assert c.sources.Keys == {T};
  }

  /** The writes of the tool submission, computed from the state in which it begins. */
  lemma SubmissionWrites()
    ensures SubmitTxs(Waiting().artifacts, B1, [(T, "contract")], Answer, Oracle())
         == [AcceptBatch(B1, Response1)] + GuidanceTxs("g", T, "contract", "guidance") + EnrichTxs("g", T, "contract", "guidance", Rich, Oracle())
  {
    hide GuidanceTxs, EnrichTxs;
    var items, arts := [(T, "contract")], {Lex, Desc};
    assert Guidances(Answer) == map[T := "guidance"] by { assert Answer[..0] == [] && Guidances([]) == map[]; }
    VectorIsNew();
    assert items[..0] == [];
    assert ItemsTxs("g", items, map[T := "guidance"], arts, Oracle()) == ItemTxs("g", items[0], map[T := "guidance"], arts, Oracle());
  }

  lemma VectorIsNew()
    ensures EnrichedVector({Lex, Desc}, T, "guidance", Oracle()) == Some(Rich)
  {
    assert |EnrichedText(T, "guidance")| == 4 && |"description"| == 11;
    assert (set a | a in {Lex, Desc} && a.spec == Rich.spec) == {};
  }

  lemma RunsToEnriched()
    ensures Ran(Waiting(), SubmitTxs(Waiting().artifacts, B1, [(T, "contract")], Answer, Oracle()), Enrichment())
  {
    hide Exec, Ran, Waiting, Answered, Enrichment, SubmitTxs, GuidanceTxs, EnrichTxs;
    RunsToAnswered();
    RunsToEnrichment();
    SubmissionWrites();
    RanAppend(Waiting(), [AcceptBatch(B1, Response1)] + GuidanceTxs("g", T, "contract", "guidance"), Answered(),
              EnrichTxs("g", T, "contract", "guidance", Rich, Oracle()), Enrichment());
  }

  lemma GuidanceWhenAsked()
    ensures var c := Asking().generations["g"].content; GuidanceItems(c, {T}) == map[T := "guidance"] && c.sources == Src
  {
    var c := Asking().generations["g"].content;
    assert c.attached[ToolSlot(Guidance, T)] == Guide;
  }

  lemma RunsToTheEnd()
    ensures Ran(Asking(), CapabilityTxs(Asking().generations["g"].content, B2, {T}, "tree", []), Reconciled())
  {
    hide Exec, Ran, Asking, Reconciling, Reconciled, GuidanceItems, HierarchyTxs;
    RunsToReconciling();
    RunsToReconciled();
    GuidanceWhenAsked();
    RanAppend(Asking(), [AcceptBatch(B2, Response2), PutBatches(ReviewBatches("g", []))], Reconciling(),
              HierarchyTxs("g", Tree.spec, "tree", Src), Reconciled());
  }

  /** All writes of the run, operation by operation; the refresh is cut off before its last four. */
  ghost function WholeRun(): seq<Tx> {
    RefreshTxs()[..13]
    + HandOutTxs()
    + SubmitTxs(Waiting().artifacts, B1, [(T, "contract")], Answer, Oracle())
    + AskingTxs()
    + CapabilityTxs(Asking().generations["g"].content, B2, {T}, "tree", [])
    + [Promote("g", "h")]
  }

  lemma WholeRunEnds()
    ensures |RefreshTxs()| > 13 && Ran(EmptyDb, WholeRun(), Final())
  {
    hide Exec, Ran, RefreshTxs, HandOutTxs, SubmitTxs, AskingTxs, CapabilityTxs, CutOff, Waiting, Enrichment, Declared, Reconciled, Final;
    RunsToCutOff();
    RunsToWaiting();
    RunsToEnriched();
    RunsToAsking();
    RunsToTheEnd();
    Promotes();
    RanOne(Reconciled(), Promote("g", "h"), Final());
    var t1 := RefreshTxs()[..13];
    var t2, t3 := t1 + HandOutTxs(), SubmitTxs(Waiting().artifacts, B1, [(T, "contract")], Answer, Oracle());
    var t4 := CapabilityTxs(Asking().generations["g"].content, B2, {T}, "tree", []);
    RanAppend(EmptyDb, t1, CutOff(), HandOutTxs(), Waiting());
    RanAppend(EmptyDb, t2, Waiting(), t3, Enrichment());
    RanAppend(EmptyDb, t2 + t3, Enrichment(), AskingTxs(), Asking());
    RanAppend(EmptyDb, t2 + t3 + AskingTxs(), Asking(), t4, Reconciled());
    RanAppend(EmptyDb, t2 + t3 + AskingTxs() + t4, Reconciled(), [Promote("g", "h")], Final());
  }

  /**
   The whole run: a refresh that is cut off before it declares the schema vector of its last tool, the
   preparation and submission of the tool batch, the preparation and submission of the capability batch,
   and the promotion. The index is sound at the end, and no search can use it.
   */
  lemma CutRefreshDefeatsSearch()
    ensures Faithful(Oracle()) && Ran(EmptyDb, WholeRun(), Final()) && IndexSound(Final())
    ensures |RefreshTxs()| > 13 && RefreshTxs()[13] == RequireDependency("g", ArtifactKey(ToolSlot(InputSchema, T)), OfSpec(EmbeddingSpec("p", "schema")))
    ensures Final().generations["g"].status == Active && ReconciledTools(Final(), "g") != {}
    ensures !CountsMatch(Final().generations["g"].content)
  {
    hide Exec, Ran, ReconciledTools, WholeRun, RefreshTxs, Oracle, IndexSound, CountsMatch;
    OracleIsFaithful();
    WholeRunEnds();
    RefreshBegins();
    FinalIsSound();
    FinalFailsSearch();
  }

  lemma FinalIsSound()
    ensures IndexSound(Final())
  {
    hide GenerationSound, MembersReady, RequirementsReady, BatchTools, ReconciledTools, Reconciled;
    FinalIsReady();
    FinalContentIsSound();
    FinalWork();
    FinalBatches();
  }

  lemma FinalBatches()
    ensures Final().batches == map[B1 := Handed.(accepted := Some(Response1)), B2 := Asked.(accepted := Some(Response2))]
  {
  }

  lemma FinalWork()
    ensures BatchTools(Final(), "g") == {T} && ReconciledTools(Final(), "g") == {T}
  {
    hide Final;
    var db := Final();
    FinalBatches();
    assert db.batches[B1].request.items[0].0 == T;
    assert T in BatchTools(db, "g");
    NamesTool(db);
  }

  /** The artifact that each slot of the final content has. */
  function FinalArtifacts(): map<Slot, Artifact> {
    map[ToolSlot(Lexical, T) := Lex, ToolSlot(Description, T) := Desc, ToolSlot(Guidance, T) := Guide, ToolSlot(Enriched, T) := Rich,
        HierarchySlot := Tree]
  }

  lemma WaitingRows()
    ensures var c := Waiting().generations["g"].content;
            && c.attached == map[ToolSlot(Lexical, T) := Lex, ToolSlot(Description, T) := Desc] && c.sources == Src && c.lexical.Keys == {T}
            && c.requirements.Keys == {LexKey, DescKey, GuideKey, EnrichedGate(T), CapabilityGate}
            && c.requirements[LexKey] == Met(OfSpec(Lex.spec)) && c.requirements[DescKey] == Met(OfSpec(Desc.spec))
  {
  }

  lemma EnrichmentRows()
    ensures Enrichment().artifacts == {Lex, Desc, Guide, Rich} && "g" in Enrichment().generations && B2 !in Enrichment().batches
    ensures var c := Enrichment().generations["g"].content;
            && c.attached == FinalArtifacts() - {HierarchySlot} && c.sources == Src && c.lexical.Keys == {T}
            && c.requirements.Keys == {LexKey, DescKey, GuideKey, RichKey, EnrichedGate(T), CapabilityGate}
            && c.requirements[LexKey] == Met(OfSpec(Lex.spec)) && c.requirements[DescKey] == Met(OfSpec(Desc.spec))
            && c.requirements[GuideKey] == Met(OfSpec(Guide.spec)) && c.requirements[RichKey] == Met(OfSpec(Rich.spec))
  {
    hide Waiting;
    WaitingRows();
  }

  lemma FinalRows()
    ensures var c := Final().generations["g"].content;
            && c.attached == FinalArtifacts() && c.sources == Src && c.lexical.Keys == {T}
            && c.requirements.Keys == {LexKey, DescKey, GuideKey, RichKey, ArtifactKey(HierarchySlot), EnrichedGate(T), CapabilityGate}
            && c.requirements[LexKey] == Met(OfSpec(Lex.spec)) && c.requirements[DescKey] == Met(OfSpec(Desc.spec))
            && c.requirements[GuideKey] == Met(OfSpec(Guide.spec)) && c.requirements[RichKey] == Met(OfSpec(Rich.spec))
            && c.requirements[ArtifactKey(HierarchySlot)] == Met(OfSpec(Tree.spec))
  {
    hide Enrichment;
    EnrichmentRows();
  }

  lemma FinalMatches()
    ensures ArtifactsMatch(Final().generations["g"].content)
  {
    hide Final;
    FinalRows();
  }

  lemma FinalContentIsSound()
    ensures GenerationSound(Final().generations["g"].content, {T}, {T})
  {
    hide Final, ArtifactsMatch;
    FinalMatches();
    FinalRows();
  }

  // ---------------------------------------------------------------------------------------------
  // A member that never becomes a source
  // ---------------------------------------------------------------------------------------------

  /** The tool was declared in the generation, and is not a source of it. */
  predicate Stray(db: Db, g: GenerationId, t: Tool) {
    g in db.generations && t in db.generations[g].content.members && t !in db.generations[g].content.sources
  }

  lemma StrayBlocksPromotion(db: Db, g: GenerationId, hash: string, t: Tool)
    requires Stray(db, g, t)
    ensures PromoteError(db, g, hash).Some?
  {
    assert t in db.generations[g].content.members;
  }

  lemma WriteKeepsMember(db: Db, tx: Tx, g: GenerationId, t: Tool)
    requires g in db.generations && t in db.generations[g].content.members
    ensures g in After(db, tx).generations && t in After(db, tx).generations[g].content.members
  {
    hide MembersReady, RequirementsReady, PutBatchesError, AcceptError;
  }

  /** No later transaction takes a declared member away: until its tool is listed again, no promotion succeeds. */
  lemma {:induction false} StrayStays(db: Db, txs: seq<Tx>, g: GenerationId, hash: string, t: Tool)
    requires g in db.generations && t in db.generations[g].content.members
    ensures var u := RunTx(db, txs);
            && g in u.generations && t in u.generations[g].content.members
            && (t !in u.generations[g].content.sources ==> PromoteError(u, g, hash).Some?)
    decreases |txs|
  {
    hide PromoteError, After;
    if txs == [] {
      if Stray(db, g, t) {
        StrayBlocksPromotion(db, g, hash, t);
      }
    } else {
      WriteKeepsMember(db, txs[0], g, t);
      StrayStays(After(db, txs[0]), txs[1..], g, hash, t);
    }
  }

  /** A refresh that is cut off right after it declared its first member leaves one in a generation that the next refresh keeps. */
  lemma CutRefreshLeavesStray() returns (d: Db)
    ensures |RefreshTxs()| > 3 && Ran(EmptyDb, RefreshTxs()[..3], d)
    ensures Stray(d, "g", T) && d.generations["g"].status == Staging && d.generations["g"].hash == "h" && d.generations["g"].content.sources == map[]
  {
    var c1 := SourceRequired(EmptyContent, T, "contract");
    var d0, tx0, tx1, tx2 := Tables(Staging, EmptyContent, {}, map[]), ReconcileStaging("h"), CreateStaging("g", "h"), RequireSource("g", T, "contract");
    d := Tables(Staging, c1, {}, map[]);
    assert Exec(EmptyDb, tx0) == Ok(EmptyDb) by { assert SupersedeStale(map[], "h") == map[]; }
    assert Exec(EmptyDb, tx1) == Ok(d0);
    OneRow(EmptyContent, c1, {}, map[]);
    RanOne(d0, tx2, d);
    RunOn(EmptyDb, tx1, d0, [tx2], d);
    RunOn(EmptyDb, tx0, EmptyDb, [tx1] + [tx2], d);
    assert RefreshTxs()[..3] == [tx0] + ([tx1] + [tx2]) by { RefreshBegins(); }
  }
}
