/**
 Enrichment: tool batches, capability reconciliation and commit, as writes to the catalog that may be
 cut off after any write.
 */
module IndexEnrichment {
  import opened Common
  import opened CatalogModel
  import opened CatalogTables
  import opened GreedyBatches
  import opened IndexInvariant
  import opened IndexBuild
  import opened Text

  type Work = (Tool, string)

  /** Bounds on a tool batch; `size` is the length of the encoded request. */
  datatype Limits = Limits(batchSize: nat, maxBytes: int, size: seq<Work> -> nat)

  // ---------------------------------------------------------------------------------------------
  // The writes for one tool whose guidance is known
  // ---------------------------------------------------------------------------------------------

  function GuidanceOf(contract: string, guidance: string): Artifact {
    Artifact(GuidanceSpec(contract), guidance)
  }

  function EnrichedSpec(t: Tool, guidance: string, o: Tools): Spec {
    EmbeddingSpec(o.provider, o.enrichedText(t, guidance))
  }

  /** The enriched vector that would be attached now: a stored one, or a new one. */
  function EnrichedVector(artifacts: set<Artifact>, t: Tool, guidance: string, o: Tools): Option<Artifact> {
    var spec := EnrichedSpec(t, guidance, o);
    var found := Reusable(artifacts, spec, o.choose);
    if found.Some? then Some(Artifact(spec, found.value.payload))
    else
      var vector := o.embed(spec.text);
      if vector.Some? then Some(Artifact(spec, vector.value)) else None
  }

  /** The same, with an empty vector in place of one that is not to be had. */
  function EnrichedOr(artifacts: set<Artifact>, t: Tool, guidance: string, o: Tools): Artifact {
    var vector := EnrichedVector(artifacts, t, guidance, o);
    if vector.Some? then vector.value else Artifact(EnrichedSpec(t, guidance, o), "")
  }

  /** Everything that guidance for one tool leads to, write by write. */
  function ToolTxs(g: GenerationId, t: Tool, contract: string, guidance: string, vector: Artifact, o: Tools): (txs: seq<Tx>)
    ensures |txs| == 8
  {
    GuidanceTxs(g, t, contract, guidance) + EnrichTxs(g, t, contract, guidance, vector, o)
  }

  function GuidanceTxs(g: GenerationId, t: Tool, contract: string, guidance: string): (txs: seq<Tx>)
    ensures |txs| == 3
  {
    [PutArtifact(GuidanceOf(contract, guidance))]
    + FulfillTxs(g, ToolSlot(Guidance, t), GuidanceSpec(contract), GuidanceOf(contract, guidance))
  }

  function EnrichTxs(g: GenerationId, t: Tool, contract: string, guidance: string, vector: Artifact, o: Tools): (txs: seq<Tx>)
    ensures |txs| == 5
  {
    [RequireDependency(g, ArtifactKey(ToolSlot(Enriched, t)), OfSpec(EnrichedSpec(t, guidance, o))), PutArtifact(vector)]
    + FulfillTxs(g, ToolSlot(Enriched, t), EnrichedSpec(t, guidance, o), vector)
    + [SatisfyDependency(g, EnrichedGate(t), OfGate(o.provider, contract))]
  }

  /** Guidance for a tool may be attached. */
  ghost predicate MayGuide(c: Content, t: Tool) {
    MayAttach(c, ToolSlot(Guidance, t))
  }

  /** Declares the enriched vector of a tool and stores the artifact for it, without attaching it. */
  method StoreEnriched(cat: Catalog, g: GenerationId, t: Tool, contract: string, guidance: string, o: Tools)
    returns (e: Option<Error>, a: Artifact, ghost n: nat)
    requires Building(cat.Tables(), g)
    modifies cat
    ensures Building(cat.Tables(), g) && OnlyContent(old(cat.Tables()), cat.Tables(), g)
    ensures Grew(old(cat.generations[g].content), cat.generations[g].content, {})
    ensures n <= 2 && (e.None? ==> n == 2)
    ensures n == 2 ==> EnrichedVector(old(cat.artifacts), t, guidance, o) == Some(a) && cat.artifacts == old(cat.artifacts) + {a}
    ensures forall v :: (n == 2 ==> v == a) ==>
              Ran(old(cat.Tables()), EnrichTxs(g, t, contract, guidance, v, o)[..n], cat.Tables())
    ensures cat.artifacts <= old(cat.artifacts) + {a} && a.spec == EnrichedSpec(t, guidance, o)
  {
    hide IndexSound, Exec, Ran;
    var slot, spec := ToolSlot(Enriched, t), EnrichedSpec(t, guidance, o);
    ghost var db0 := cat.Tables();
    a := Artifact(spec, "");
    n := 0;
    forall v ensures Ran(db0, EnrichTxs(g, t, contract, guidance, v, o)[..0], db0) {
      NothingRan(db0, EnrichTxs(g, t, contract, guidance, v, o));
    }
    e := RequireIn(cat, g, ArtifactKey(slot), OfSpec(spec));
    if e.Some? { return; }
    n := 1;
    ghost var db1 := cat.Tables();
    forall v ensures Ran(db0, EnrichTxs(g, t, contract, guidance, v, o)[..1], db1) {
      RanNext(db0, EnrichTxs(g, t, contract, guidance, v, o), 0, db0, db1);
    }
    var found := cat.FindReusableArtifact(spec, o.choose);
    if found.Some? {
      a := Artifact(spec, found.value.payload);
    } else {
      var vector := o.embed(spec.text);
      if vector.None? { return Some(ConnectionLost), a, 1; }
      a := Artifact(spec, vector.value);
    }
    e := StoreIn(cat, g, a);
    if e.Some? { return; }
    n := 2;
    RanNext(db0, EnrichTxs(g, t, contract, guidance, a, o), 1, db1, cat.Tables());
  }

  /** The enriched vector of a tool and its gate, after the guidance itself has been attached. */
  method EnrichTool(cat: Catalog, g: GenerationId, t: Tool, contract: string, guidance: string, o: Tools)
    returns (e: Option<Error>, ghost a: Artifact, ghost n: nat)
    requires Building(cat.Tables(), g) && t in cat.generations[g].content.sources
    modifies cat
    ensures Building(cat.Tables(), g) && OnlyContent(old(cat.Tables()), cat.Tables(), g)
    ensures Grew(old(cat.generations[g].content), cat.generations[g].content, {ToolSlot(Enriched, t)})
    ensures n <= 5 && (e.None? ==> n == 5 && ToolSlot(Enriched, t) in cat.generations[g].content.attached)
    ensures n >= 2 ==> EnrichedVector(old(cat.artifacts), t, guidance, o) == Some(a) && cat.artifacts == old(cat.artifacts) + {a}
    ensures forall v :: (n >= 2 ==> v == a) ==>
              Ran(old(cat.Tables()), EnrichTxs(g, t, contract, guidance, v, o)[..n], cat.Tables())
    ensures cat.artifacts <= old(cat.artifacts) + {a} && a.spec == EnrichedSpec(t, guidance, o)
  {
    hide IndexSound, Exec, Ran;
    var slot, spec := ToolSlot(Enriched, t), EnrichedSpec(t, guidance, o);
    ghost var db0 := cat.Tables();
    var vector;
    e, vector, n := StoreEnriched(cat, g, t, contract, guidance, o);
    a := vector;
    if e.Some? { return; }
    ghost var txs, db2 := EnrichTxs(g, t, contract, guidance, a, o), cat.Tables();
    ghost var m;
    e, m := FulfillIn(cat, g, slot, spec, vector);
    ghost var db3 := cat.Tables();
    assert txs[2..2 + m] == FulfillTxs(g, slot, spec, a)[..m];
    RanMore(db0, txs, 2, m, db2, db3);
    n := 2 + m;
    if e.Some? { return; }
    e := SatisfyGateIn(cat, g, EnrichedGate(t), OfGate(o.provider, contract));
    if e.Some? { return; }
    n := 5;
    RanNext(db0, txs, 4, db3, cat.Tables());
  }

  /** What the code outside the model guarantees: a choice among candidates, and texts that name their tool. */
  ghost predicate Faithful(o: Tools) {
    && Chooses(o.choose)
    && forall t, u, x, y :: o.enrichedText(t, x) == o.enrichedText(u, y) ==> t == u
  }

  /** Artifacts that do not have the identity in question do not change what is reused. */
  lemma VectorStable(before: set<Artifact>, after: set<Artifact>, t: Tool, guidance: string, o: Tools)
    requires before <= after && forall a :: a in after - before ==> a.spec != EnrichedSpec(t, guidance, o)
    ensures EnrichedVector(after, t, guidance, o) == EnrichedVector(before, t, guidance, o)
  {
    var spec := EnrichedSpec(t, guidance, o);
    assert (set a | a in after && a.spec == spec) == (set a | a in before && a.spec == spec);
  }

  /** Stores and attaches the guidance for a tool. */
  method AttachGuidance(cat: Catalog, g: GenerationId, t: Tool, contract: string, guidance: string)
    returns (e: Option<Error>, ghost n: nat)
    requires Building(cat.Tables(), g) && MayGuide(cat.generations[g].content, t)
    modifies cat
    ensures Building(cat.Tables(), g) && OnlyContent(old(cat.Tables()), cat.Tables(), g)
    ensures Grew(old(cat.generations[g].content), cat.generations[g].content, {ToolSlot(Guidance, t)})
    ensures e.None? ==> ToolSlot(Guidance, t) in cat.generations[g].content.attached
    ensures n <= 3 && (e.None? ==> n == 3)
    ensures Ran(old(cat.Tables()), GuidanceTxs(g, t, contract, guidance)[..n], cat.Tables())
    ensures cat.artifacts <= old(cat.artifacts) + {GuidanceOf(contract, guidance)}
  {
    hide IndexSound, Exec, Ran;
    var slot, spec, artifact := ToolSlot(Guidance, t), GuidanceSpec(contract), GuidanceOf(contract, guidance);
    ghost var db0, txs := cat.Tables(), GuidanceTxs(g, t, contract, guidance);
    n := 0;
    NothingRan(db0, txs);
    e := StoreIn(cat, g, artifact);
    if e.Some? { return; }
    ghost var db1, m := cat.Tables(), 0;
    RanNext(db0, txs, 0, db0, db1);
    e, m := FulfillIn(cat, g, slot, spec, artifact);
    assert txs[1..1 + m] == FulfillTxs(g, slot, spec, artifact)[..m];
    RanMore(db0, txs, 1, m, db1, cat.Tables());
    n := 1 + m;
  }

  /** All writes for one tool: guidance, enriched vector and gate. */
  method GuideTool(cat: Catalog, g: GenerationId, t: Tool, contract: string, guidance: string, o: Tools)
    returns (e: Option<Error>, ghost a: Artifact, ghost n: nat)
    requires Building(cat.Tables(), g) && MayGuide(cat.generations[g].content, t)
    modifies cat
    ensures Building(cat.Tables(), g) && OnlyContent(old(cat.Tables()), cat.Tables(), g)
    ensures Grew(old(cat.generations[g].content), cat.generations[g].content, {ToolSlot(Guidance, t), ToolSlot(Enriched, t)})
    ensures e.None? ==> ToolSlot(Guidance, t) in cat.generations[g].content.attached
    ensures n <= 8 && (e.None? ==> n == 8)
    ensures n >= 5 ==> EnrichedVector(old(cat.artifacts), t, guidance, o) == Some(a)
    ensures forall v :: (n >= 5 ==> v == a) ==>
              Ran(old(cat.Tables()), ToolTxs(g, t, contract, guidance, v, o)[..n], cat.Tables())
    ensures cat.artifacts <= old(cat.artifacts) + {GuidanceOf(contract, guidance), a} && a.spec == EnrichedSpec(t, guidance, o)
  {
    hide IndexSound, Exec, Ran, Building, GuidanceTxs, EnrichTxs;
    a := Artifact(EnrichedSpec(t, guidance, o), "");
    ghost var db0, m := cat.Tables(), 0;
    e, n := AttachGuidance(cat, g, t, contract, guidance);
    ghost var db3, first := cat.Tables(), GuidanceTxs(g, t, contract, guidance);
    assert forall v :: ToolTxs(g, t, contract, guidance, v, o)[..n] == first[..n];
    if e.Some? { return; }
    VectorStable(db0.artifacts, db3.artifacts, t, guidance, o);
    e, a, m := EnrichTool(cat, g, t, contract, guidance, o);
    OnlyContentTransitive(db0, db3, cat.Tables(), g);
    n := 3 + m;
    forall v | m >= 2 ==> v == a ensures Ran(db0, ToolTxs(g, t, contract, guidance, v, o)[..n], cat.Tables()) {
      ghost var rest := EnrichTxs(g, t, contract, guidance, v, o);
      assert first[..3] == first;
      RanAppend(db0, first, db3, rest[..m], cat.Tables());
      assert ToolTxs(g, t, contract, guidance, v, o)[..n] == first + rest[..m];
    }
  }

  // ---------------------------------------------------------------------------------------------
  // Submitting a tool batch
  // ---------------------------------------------------------------------------------------------

  function AnsweredTools(answers: seq<ToolAnswer>): set<Tool> {
    set i | 0 <= i < |answers| :: answers[i].tool
  }

  ghost predicate Distinct(answers: seq<ToolAnswer>) {
    forall i, j :: 0 <= i < j < |answers| ==> answers[i].tool != answers[j].tool
  }

  ghost predicate Purposeful(answers: seq<ToolAnswer>) {
    forall i :: 0 <= i < |answers| ==> Trim(answers[i].purpose) != ""
  }

  /** One answer for every tool asked for and for no other, each with a purpose. */
  ghost predicate AnswersMatch(items: seq<Work>, answers: seq<ToolAnswer>) {
    AnsweredTools(answers) == WorkTools(items) && Distinct(answers) && Purposeful(answers)
  }

  predicate AlternativesKnown(answers: seq<ToolAnswer>, sources: set<Tool>) {
    forall i, k :: 0 <= i < |answers| && 0 <= k < |answers[i].alternatives| ==> answers[i].alternatives[k] in sources
  }

  ghost predicate ValidAnswers(items: seq<Work>, answers: seq<ToolAnswer>, sources: set<Tool>) {
    AnswersMatch(items, answers) && AlternativesKnown(answers, sources)
  }

  /** The guidance given for each tool. */
  function Guidances(answers: seq<ToolAnswer>): (m: map<Tool, string>)
    ensures m.Keys == AnsweredTools(answers)
  {
    if answers == [] then map[]
    else
      var init, last := answers[..|answers| - 1], answers[|answers| - 1];
      AnsweredAppend(init, last);
      assert answers == init + [last];
      Guidances(init)[last.tool := last.guidance]
  }

  /** When no tool is answered twice, each has the guidance it was given. */
  lemma {:induction false} GuidancesMean(answers: seq<ToolAnswer>, k: nat)
    requires Distinct(answers) && k < |answers|
    ensures answers[k].tool in Guidances(answers) && Guidances(answers)[answers[k].tool] == answers[k].guidance
    decreases |answers|
  {
    var n := |answers| - 1;
    if k < n {
      GuidancesMean(answers[..n], k);
      assert answers[k].tool != answers[n].tool;
    }
  }

  lemma AnsweredAppend(answers: seq<ToolAnswer>, last: ToolAnswer)
    ensures AnsweredTools(answers + [last]) == AnsweredTools(answers) + {last.tool}
  {
    var all := answers + [last];
    assert all[|answers|] == last;
    assert forall i :: 0 <= i < |answers| ==> all[i] == answers[i];
  }

  /** The next answer keeps the ones so far acceptable, or spoils all of them. */
  lemma NextAnswer(answers: seq<ToolAnswer>, i: nat)
    requires i < |answers| && Distinct(answers[..i]) && Purposeful(answers[..i])
    ensures answers[i].tool in AnsweredTools(answers)
    ensures answers[i].tool in AnsweredTools(answers[..i]) ==> !Distinct(answers)
    ensures answers[i].tool !in AnsweredTools(answers[..i]) ==> Distinct(answers[..i + 1])
    ensures Trim(answers[i].purpose) == "" ==> !Purposeful(answers)
    ensures Trim(answers[i].purpose) != "" ==> Purposeful(answers[..i + 1])
    ensures Guidances(answers[..i + 1]) == Guidances(answers[..i])[answers[i].tool := answers[i].guidance]
  {
    hide Trim;
    var init := answers[..i];
    assert answers[..i + 1][..i] == init;
    assert forall k :: 0 <= k < i ==> init[k].tool in AnsweredTools(init);
    if answers[i].tool in AnsweredTools(init) {
      var k :| 0 <= k < i && init[k].tool == answers[i].tool;
      assert answers[k].tool == answers[i].tool;
    }
  }

  /** Collects the answers, and refuses unknown, repeated, purposeless and missing ones. */
  method CollectAnswers(items: seq<Work>, answers: seq<ToolAnswer>) returns (r: Option<map<Tool, string>>)
    ensures r.Some? <==> AnswersMatch(items, answers)
    ensures r.Some? ==> r.value == Guidances(answers)
  {
    hide Trim, Distinct, Purposeful, WorkTools, AnsweredTools;
    var asked := WorkTools(items);
    var results: map<Tool, string> := map[];
    NoAnswers(answers);
    for i := 0 to |answers|
      invariant results == Guidances(answers[..i]) && results.Keys <= asked
      invariant Distinct(answers[..i]) && Purposeful(answers[..i])
    {
      NextAnswer(answers, i);
      var item := answers[i];
      if item.tool !in asked || item.tool in results || Trim(item.purpose) == "" {
        return None;
      }
      results := results[item.tool := item.guidance];
    }
    assert answers[..|answers|] == answers;
    SameSize(results.Keys, asked);
    r := if |results| == |asked| then Some(results) else None;
  }

  lemma NoAnswers(answers: seq<ToolAnswer>)
    ensures Distinct(answers[..0]) && Purposeful(answers[..0]) && Guidances(answers[..0]) == map[]
  {
  }

  /** The tests of a submission before it is accepted. */
  method CheckAnswers(items: seq<Work>, answers: seq<ToolAnswer>, sources: set<Tool>) returns (r: Option<map<Tool, string>>)
    ensures r.Some? <==> ValidAnswers(items, answers, sources)
    ensures r.Some? ==> r.value == Guidances(answers)
  {
    hide AnswersMatch;
    r := CollectAnswers(items, answers);
    if r.None? {
      return;
    }
    for i := 0 to |answers|
      invariant AlternativesKnown(answers[..i], sources)
    {
      var answer := answers[i];
      for k := 0 to |answer.alternatives|
        invariant forall m :: 0 <= m < k ==> answer.alternatives[m] in sources
      {
        if answer.alternatives[k] !in sources {
          return None;
        }
      }
    }
    assert answers[..|answers|] == answers;
  }

  /** Tools of a batch may be guided as long as its generation is being built. */
  lemma BatchedMayGuide(db: Db, b: BatchId, i: nat)
    requires Building(db, b.generation) && b in db.batches && db.batches[b].request.ToolRequest?
    requires i < |db.batches[b].request.items|
    ensures MayGuide(db.generations[b.generation].content, db.batches[b].request.items[i].0)
  {
    var t := db.batches[b].request.items[i].0;
    assert t in BatchTools(db, b.generation);
    StaysSound(db, b.generation);
  }

  /** Every artifact that the writes for some tools add belongs to one of them. */
  ghost predicate AddedFor(before: set<Artifact>, after: set<Artifact>, tools: set<Tool>, o: Tools) {
    before <= after && forall a :: a in after - before ==>
      a.spec.GuidanceSpec? || exists t, x :: t in tools && a.spec == EnrichedSpec(t, x, o)
  }

  lemma AddedVectorStable(before: set<Artifact>, after: set<Artifact>, tools: set<Tool>, t: Tool, guidance: string, o: Tools)
    requires Faithful(o) && AddedFor(before, after, tools, o) && t !in tools
    ensures EnrichedVector(after, t, guidance, o) == EnrichedVector(before, t, guidance, o)
  {
    forall a | a in after - before ensures a.spec != EnrichedSpec(t, guidance, o) {
      if !a.spec.GuidanceSpec? {
        var u, x :| u in tools && a.spec == EnrichedSpec(u, x, o);
        assert o.enrichedText(u, x) == a.spec.text;
      }
    }
    VectorStable(before, after, t, guidance, o);
  }
}
