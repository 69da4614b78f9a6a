/**
 The index build: refresh, enrichment and commit, as sequences of writes to the catalog that may be
 cut off after any write. Every operation here starts and ends with a sound index, also when it fails.
 */
module IndexBuild {
  import opened Common
  import opened ServerConfig
  import opened CatalogModel
  import opened CatalogTables
  import opened IndexInvariant

  /** The texts of a tool contract that are indexed. */
  datatype Projections = Projections(lexical: string, description: string, schema: string)

  /** Code outside the model: projection of contracts and guidance to texts, and the embedding provider. */
  datatype Tools = Tools(
    provider: string,
    project: string -> Projections,
    embed: string -> Option<string>,
    enrichedText: (Tool, string) -> string,
    choose: set<Artifact> -> Artifact)

  // ---------------------------------------------------------------------------------------------
  // Single writes to the generation that is being built
  // ---------------------------------------------------------------------------------------------

  method RequireIn(cat: Catalog, g: GenerationId, key: Key, expected: Fingerprint) returns (e: Option<Error>)
    requires Building(cat.Tables(), g)
    modifies cat
    ensures Building(cat.Tables(), g) && OnlyContent(old(cat.Tables()), cat.Tables(), g)
    ensures Wrote(old(cat.Tables()), RequireDependency(g, key, expected), e, cat.Tables())
    ensures cat.artifacts == old(cat.artifacts)
    ensures RowsOnly(old(cat.generations[g].content), cat.generations[g].content, {key})
    ensures cat.generations[g].content ==
            if e.None? then Required(old(cat.generations[g].content), key, expected) else old(cat.generations[g].content)
  {
    hide GenerationSound, IndexSound;
    ghost var a := cat.Tables();
    e := cat.Require(g, key, expected);
    if e.None? {
      ghost var c := a.generations[g].content;
      StaysSound(a, g);
      RequiredKeeps(c, key, expected, BatchTools(a, g), ReconciledTools(a, g));
    }
    StaysSound(a, g);
    ContentKeeps(a, cat.Tables(), g);
  }

  lemma StaysSound(db: Db, g: GenerationId)
    requires Building(db, g)
    ensures SoundFor(db, g, db.generations[g].content)
  {
    hide GenerationSound;
  }

  /** Only these requirement rows differ. */
  ghost predicate RowsOnly(c: Content, d: Content, keys: set<Key>) {
    forall key :: key !in keys ==>
      && (key in c.requirements <==> key in d.requirements)
      && (key in c.requirements ==> d.requirements[key] == c.requirements[key])
  }

  lemma RowsTransitive(a: Content, b: Content, c: Content, x: set<Key>, y: set<Key>, keys: set<Key>)
    requires RowsOnly(a, b, x) && RowsOnly(b, c, y) && x <= keys && y <= keys
    ensures RowsOnly(a, c, keys)
  {
  }

  lemma SameRows(a: Content, b: Content, keys: set<Key>)
    requires a.requirements == b.requirements
    ensures RowsOnly(a, b, keys)
  {
  }

  /** A row that is not among those that differ is as it was. */
  lemma RowKept(c: Content, d: Content, keys: set<Key>, key: Key)
    requires RowsOnly(c, d, keys) && key !in keys
    ensures Complete(d, key) <==> Complete(c, key)
    ensures key in c.requirements ==> key in d.requirements && d.requirements[key] == c.requirements[key]
  {
  }

  function SourceTxs(g: GenerationId, t: Tool, contract: string): seq<Tx> {
    [RequireSource(g, t, contract), PutSource(g, t, contract, true)]
  }

  method PutSourceIn(cat: Catalog, g: GenerationId, t: Tool, contract: string) returns (e: Option<Error>, ghost n: nat)
    requires Building(cat.Tables(), g)
    requires t in cat.generations[g].content.sources
             || (!Guided(cat.generations[g].content) && BatchTools(cat.Tables(), g) == {})
    modifies cat
    ensures Building(cat.Tables(), g) && OnlyContent(old(cat.Tables()), cat.Tables(), g)
    ensures cat.artifacts == old(cat.artifacts)
    ensures var c, d := old(cat.generations[g].content), cat.generations[g].content;
            && d == c.(sources := d.sources, members := d.members)
            && (d.sources == c.sources || d.sources == c.sources[t := contract])
            && (e.None? ==> d.sources == c.sources[t := contract])
            && d.members - {t} == c.members - {t}
            && (e.None? ==> t in d.members && d.members[t] == Member(contract, Some(contract), true))
    ensures n <= 2 && Ran(old(cat.Tables()), SourceTxs(g, t, contract)[..n], cat.Tables()) && (e.None? ==> n == 2)
  {
    hide GenerationSound, IndexSound, Ran;
    ghost var a, txs := cat.Tables(), SourceTxs(g, t, contract);
    NothingRan(a, txs);
    n := 0;
    ghost var c, batched, reconciled := a.generations[g].content, BatchTools(a, g), ReconciledTools(a, g);
    StaysSound(a, g);
    e := cat.RequireSourceTool(g, t, contract);
    if e.None? {
      RanNext(a, txs, 0, a, cat.Tables());
      n := 1;
      SourceRequiredKeeps(c, t, contract, batched, reconciled);
      ghost var middle := cat.Tables();
      ghost var c1 := SourceRequired(c, t, contract);
      assert !Guided(c) ==> !Guided(c1);
      e := cat.PutSourceTool(g, t, contract, true);
      if e.None? {
        RanNext(a, txs, 1, middle, cat.Tables());
        n := 2;
        SourcePutKeeps(c1, t, contract, batched, reconciled);
      }
    }
    ContentKeeps(a, cat.Tables(), g);
  }

  method PutLexicalIn(cat: Catalog, g: GenerationId, t: Tool, text: string) returns (e: Option<Error>)
    requires Building(cat.Tables(), g) && t in cat.generations[g].content.sources
    modifies cat
    ensures Building(cat.Tables(), g) && OnlyContent(old(cat.Tables()), cat.Tables(), g)
    ensures cat.artifacts == old(cat.artifacts)
    ensures Wrote(old(cat.Tables()), PutLexical(g, t, text), e, cat.Tables())
    ensures cat.generations[g].content ==
            if e.None? then LexicalPut(old(cat.generations[g].content), t, text) else old(cat.generations[g].content)
  {
    hide GenerationSound, IndexSound;
    ghost var a := cat.Tables();
    StaysSound(a, g);
    e := cat.PutLexicalRecord(g, t, text);
    if e.None? {
      LexicalPutKeeps(a.generations[g].content, t, text, BatchTools(a, g), ReconciledTools(a, g));
    }
    ContentKeeps(a, cat.Tables(), g);
  }

  method StoreIn(cat: Catalog, g: GenerationId, a: Artifact) returns (e: Option<Error>)
    requires Building(cat.Tables(), g)
    modifies cat
    ensures Building(cat.Tables(), g) && OnlyContent(old(cat.Tables()), cat.Tables(), g)
    ensures Wrote(old(cat.Tables()), PutArtifact(a), e, cat.Tables())
    ensures cat.generations == old(cat.generations)
    ensures cat.artifacts == if e.None? then old(cat.artifacts) + {a} else old(cat.artifacts)
  {
    hide GenerationSound, IndexSound;
    ghost var db := cat.Tables();
    StaysSound(db, g);
    e := cat.StoreArtifact(a);
    assert db.generations[g := db.generations[g].(content := db.generations[g].content)] == db.generations;
    ContentKeeps(db, cat.Tables(), g);
  }

  function FulfillTxs(g: GenerationId, slot: Slot, spec: Spec, a: Artifact): seq<Tx> {
    [AttachArtifact(g, slot, a), SatisfyDependency(g, ArtifactKey(slot), OfSpec(spec))]
  }

  /** Attach and satisfy; a cut in between leaves the requirement open and the artifact attached. */
  method FulfillIn(cat: Catalog, g: GenerationId, slot: Slot, spec: Spec, a: Artifact) returns (e: Option<Error>, ghost n: nat)
    requires Building(cat.Tables(), g) && MayAttach(cat.generations[g].content, slot)
    modifies cat
    ensures Building(cat.Tables(), g) && OnlyContent(old(cat.Tables()), cat.Tables(), g)
    ensures n <= 2 && Ran(old(cat.Tables()), FulfillTxs(g, slot, spec, a)[..n], cat.Tables()) && (e.None? ==> n == 2)
    ensures cat.artifacts == old(cat.artifacts)
    ensures var c, d := old(cat.generations[g].content), cat.generations[g].content;
            && (d == c || d == AttachedTo(c, slot, a)
                || (ArtifactKey(slot) in c.requirements && d == Satisfied(AttachedTo(c, slot, a), ArtifactKey(slot), OfSpec(spec))))
            && (e.None? ==> slot in d.attached && Complete(d, ArtifactKey(slot)))
            && RowsOnly(c, d, {ArtifactKey(slot)})
  {
    hide GenerationSound, IndexSound;
    ghost var before := cat.Tables();
    ghost var c, batched, reconciled := before.generations[g].content, BatchTools(before, g), ReconciledTools(before, g);
    StaysSound(before, g);
    e, n := FulfillError(cat.Tables(), g, slot, spec, a), 0;
    if e.None? {
      e := cat.Attach(g, slot, a);
      if e.None? {
        AttachedKeeps(c, slot, a, batched, reconciled);
        ghost var middle := cat.Tables();
        RanOne(before, AttachArtifact(g, slot, a), middle);
        n := 1;
        e := cat.Satisfy(g, ArtifactKey(slot), OfSpec(spec));
        if e.None? {
          SatisfiedKeeps(AttachedTo(c, slot, a), slot, batched, reconciled);
          n := 2;
          RanOne(middle, SatisfyDependency(g, ArtifactKey(slot), OfSpec(spec)), cat.Tables());
          RanAppend(before, [AttachArtifact(g, slot, a)], middle,
                    [SatisfyDependency(g, ArtifactKey(slot), OfSpec(spec))], cat.Tables());
        }
      }
    }
    assert FulfillTxs(g, slot, spec, a)[..1] == [AttachArtifact(g, slot, a)];
    assert FulfillTxs(g, slot, spec, a)[..2] ==
           [AttachArtifact(g, slot, a)] + [SatisfyDependency(g, ArtifactKey(slot), OfSpec(spec))];
    ContentKeeps(before, cat.Tables(), g);
  }

  method SatisfyGateIn(cat: Catalog, g: GenerationId, key: Key, actual: Fingerprint) returns (e: Option<Error>)
    requires Building(cat.Tables(), g) && !key.ArtifactKey?
    requires key.EnrichedGate? ==> ToolSlot(Enriched, key.tool) in cat.generations[g].content.attached
    modifies cat
    ensures Building(cat.Tables(), g) && OnlyContent(old(cat.Tables()), cat.Tables(), g)
    ensures Wrote(old(cat.Tables()), SatisfyDependency(g, key, actual), e, cat.Tables())
    ensures cat.artifacts == old(cat.artifacts)
    ensures var c, d := old(cat.generations[g].content), cat.generations[g].content;
            && d == (if e.None? && key in c.requirements then Satisfied(c, key, actual) else c)
            && (e.None? ==> key in c.requirements)
  {
    hide GenerationSound, IndexSound;
    ghost var a := cat.Tables();
    ghost var c := a.generations[g].content;
    StaysSound(a, g);
    e := cat.Satisfy(g, key, actual);
    if e.None? {
      GateSatisfiedKeeps(c, key, actual, BatchTools(a, g), ReconciledTools(a, g));
    }
    ContentKeeps(a, cat.Tables(), g);
  }

  // ---------------------------------------------------------------------------------------------
  // Refresh: sources, lexical records and base vectors
  // ---------------------------------------------------------------------------------------------

  /** Content that grew by rows for the given slots only, with the same sources and lexical records. */
  ghost predicate Grew(c: Content, d: Content, slots: set<Slot>) {
    && d == c.(requirements := d.requirements, attached := d.attached)
    && c.attached.Keys <= d.attached.Keys <= c.attached.Keys + slots
    && c.requirements.Keys <= d.requirements.Keys
  }

  /** The vector that would be attached for a text now: a stored one, or a new one. */
  function VectorFor(artifacts: set<Artifact>, text: string, o: Tools): Artifact {
    var spec := EmbeddingSpec(o.provider, text);
    var found := Reusable(artifacts, spec, o.choose);
    if found.Some? then found.value
    else Artifact(spec, if o.embed(text).Some? then o.embed(text).value else "")
  }

  /** The writes that give a tool the vector of a text, which is stored first if none is. */
  function VectorTxs(artifacts: set<Artifact>, g: GenerationId, role: Role, t: Tool, text: string, o: Tools): seq<Tx> {
    var slot, spec, a := ToolSlot(role, t), EmbeddingSpec(o.provider, text), VectorFor(artifacts, text, o);
    [RequireDependency(g, ArtifactKey(slot), OfSpec(spec))]
    + (if Reusable(artifacts, spec, o.choose).Some? then [] else [PutArtifact(a)])
    + FulfillTxs(g, slot, spec, a)
  }

  /** The requirement asks for this content, and is fulfilled. */
  predicate Provides(c: Content, slot: Slot, spec: Spec) {
    Complete(c, ArtifactKey(slot)) && c.requirements[ArtifactKey(slot)].expected == OfSpec(spec)
  }

  /** Declares the vector of a tool, and attaches a stored one or a new one. */
  method EnsureEmbedding(cat: Catalog, g: GenerationId, role: Role, t: Tool, text: string, o: Tools) returns (e: Option<Error>, ghost n: nat)
    requires Building(cat.Tables(), g) && MayAttach(cat.generations[g].content, ToolSlot(role, t)) && role != Guidance && Chooses(o.choose)
    modifies cat
    ensures Building(cat.Tables(), g) && OnlyContent(old(cat.Tables()), cat.Tables(), g)
    ensures Grew(old(cat.generations[g].content), cat.generations[g].content, {ToolSlot(role, t)})
    ensures RowsOnly(old(cat.generations[g].content), cat.generations[g].content, {ArtifactKey(ToolSlot(role, t))})
    ensures e.None? ==>
              && ToolSlot(role, t) in cat.generations[g].content.attached
              && Provides(cat.generations[g].content, ToolSlot(role, t), EmbeddingSpec(o.provider, text))
              && cat.artifacts == old(cat.artifacts) + {VectorFor(old(cat.artifacts), text, o)}
    ensures var txs := VectorTxs(old(cat.artifacts), g, role, t, text, o);
            n <= |txs| && Ran(old(cat.Tables()), txs[..n], cat.Tables()) && (e.None? ==> n == |txs|)
  {
    hide IndexSound, Exec, Ran, RowsOnly, OnlyContent, VectorTxs, VectorFor;
    var slot, spec := ToolSlot(role, t), EmbeddingSpec(o.provider, text);
    ghost var c0 := cat.generations[g].content;
    ghost var db0, m, txs := cat.Tables(), 0, VectorTxs(cat.artifacts, g, role, t, text, o);
    VectorWrites(cat.artifacts, g, role, t, text, o);
    NothingRan(db0, txs);
    n := 0;
    e := RequireIn(cat, g, ArtifactKey(slot), OfSpec(spec));
    if e.Some? { return; }
    ghost var db1, c1 := cat.Tables(), cat.generations[g].content;
    RanNext(db0, txs, 0, db0, db1);
    n := 1;
    var a;
    e, a, m := ObtainVector(cat, g, text, o);
    OnlyContentTransitive(db0, db1, cat.Tables(), g);
    assert txs[1..1 + m] == ObtainTxs(db0.artifacts, text, o)[..m];
    RanMore(db0, txs, 1, m, db1, cat.Tables());
    n := 1 + m;
    if e.Some? { return; }
    ghost var db2 := cat.Tables();
    e, m := FulfillIn(cat, g, slot, spec, a);
    OnlyContentTransitive(db0, db2, cat.Tables(), g);
    RowsTransitive(c0, c1, cat.generations[g].content, {ArtifactKey(slot)}, {ArtifactKey(slot)}, {ArtifactKey(slot)});
    assert txs[n..n + m] == FulfillTxs(g, slot, spec, a)[..m];
    RanMore(db0, txs, n, m, db2, cat.Tables());
    n := n + m;
  }

  /** The write that stores the vector of a text, if none is stored. */
  function ObtainTxs(artifacts: set<Artifact>, text: string, o: Tools): seq<Tx> {
    if Reusable(artifacts, EmbeddingSpec(o.provider, text), o.choose).Some? then [] else [PutArtifact(VectorFor(artifacts, text, o))]
  }

  lemma VectorWrites(artifacts: set<Artifact>, g: GenerationId, role: Role, t: Tool, text: string, o: Tools)
    ensures var txs, stores := VectorTxs(artifacts, g, role, t, text, o), ObtainTxs(artifacts, text, o);
            var spec, k := EmbeddingSpec(o.provider, text), 1 + |stores|;
            && |txs| == k + 2 && txs[0] == RequireDependency(g, ArtifactKey(ToolSlot(role, t)), OfSpec(spec))
            && txs[1..k] == stores && txs[k..] == FulfillTxs(g, ToolSlot(role, t), spec, VectorFor(artifacts, text, o))
  {
    hide Reusable, VectorFor;
  }

  /** Finds the vector of a text, or makes it and stores it. */
  method ObtainVector(cat: Catalog, g: GenerationId, text: string, o: Tools) returns (e: Option<Error>, a: Artifact, ghost n: nat)
    requires Building(cat.Tables(), g) && Chooses(o.choose)
    modifies cat
    ensures Building(cat.Tables(), g) && OnlyContent(old(cat.Tables()), cat.Tables(), g) && cat.generations == old(cat.generations)
    ensures e.None? ==> a == VectorFor(old(cat.artifacts), text, o) && cat.artifacts == old(cat.artifacts) + {a}
    ensures var txs := ObtainTxs(old(cat.artifacts), text, o);
            n <= |txs| && Ran(old(cat.Tables()), txs[..n], cat.Tables()) && (e.None? ==> n == |txs|)
  {
    hide IndexSound, Exec, Ran;
    var spec := EmbeddingSpec(o.provider, text);
    ghost var db, txs := cat.Tables(), ObtainTxs(cat.artifacts, text, o);
    NothingRan(db, txs);
    a, n := Artifact(spec, ""), 0;
    var found := cat.FindReusableArtifact(spec, o.choose);
    if found.Some? {
      return None, found.value, 0;
    }
    var vector := o.embed(text);
    if vector.None? { return Some(ConnectionLost), a, 0; }
    a := Artifact(spec, vector.value);
    e := StoreIn(cat, g, a);
    if e.Some? { return; }
    RanNext(db, txs, 0, db, cat.Tables());
    n := 1;
  }

  function LexicalTxs(g: GenerationId, t: Tool, text: string): (txs: seq<Tx>)
    ensures |txs| == 5
  {
    var slot, spec := ToolSlot(Lexical, t), LexicalSpec(text);
    [RequireDependency(g, ArtifactKey(slot), OfSpec(spec)), PutArtifact(Artifact(spec, text)), PutLexical(g, t, text)]
    + FulfillTxs(g, slot, spec, Artifact(spec, text))
  }

  /** Declares and stores the lexical record of a tool. */
  method StoreLexical(cat: Catalog, g: GenerationId, t: Tool, text: string) returns (e: Option<Error>, ghost n: nat)
    requires Building(cat.Tables(), g) && t in cat.generations[g].content.sources
    modifies cat
    ensures Building(cat.Tables(), g) && OnlyContent(old(cat.Tables()), cat.Tables(), g)
    ensures var c, d := old(cat.generations[g].content), cat.generations[g].content;
            && Grew(c.(lexical := d.lexical), d, {ToolSlot(Lexical, t)})
            && (d.lexical == c.lexical || d.lexical == c.lexical[t := text])
            && RowsOnly(c, d, {ArtifactKey(ToolSlot(Lexical, t))})
            && (e.None? ==>
                  && d.lexical == c.lexical[t := text] && ToolSlot(Lexical, t) in d.attached
                  && Provides(d, ToolSlot(Lexical, t), LexicalSpec(text)))
    ensures n <= 5 && Ran(old(cat.Tables()), LexicalTxs(g, t, text)[..n], cat.Tables())
    ensures e.None? ==> n == 5 && cat.artifacts == old(cat.artifacts) + {Artifact(LexicalSpec(text), text)}
  {
    hide IndexSound, Exec, Ran, RowsOnly, OnlyContent;
    var slot, spec := ToolSlot(Lexical, t), LexicalSpec(text);
    ghost var c0, keys := cat.generations[g].content, {ArtifactKey(slot)};
    ghost var db0, m, txs := cat.Tables(), 0, LexicalTxs(g, t, text);
    NothingRan(db0, txs);
    n := 0;
    e := RequireIn(cat, g, ArtifactKey(slot), OfSpec(spec));
    if e.Some? { return; }
    ghost var db1 := cat.Tables();
    RanNext(db0, txs, 0, db0, db1);
    n := 1;
    var a := Artifact(spec, text);
    e := StoreIn(cat, g, a);
    OnlyContentTransitive(db0, db1, cat.Tables(), g);
    if e.Some? { return; }
    ghost var db2 := cat.Tables();
    RanNext(db0, txs, 1, db1, db2);
    n := 2;
    e := PutLexicalIn(cat, g, t, text);
    OnlyContentTransitive(db0, db2, cat.Tables(), g);
    if e.Some? { return; }
    ghost var db3, c3 := cat.Tables(), cat.generations[g].content;
    SameRows(db2.generations[g].content, c3, keys);
    RowsTransitive(c0, db2.generations[g].content, c3, keys, keys, keys);
    RanNext(db0, txs, 2, db2, db3);
    n := 3;
    e, m := FulfillIn(cat, g, slot, spec, a);
    OnlyContentTransitive(db0, db3, cat.Tables(), g);
    RowsTransitive(c0, c3, cat.generations[g].content, keys, keys, keys);
    assert txs[3..3 + m] == FulfillTxs(g, slot, spec, a)[..m];
    RanMore(db0, txs, 3, m, db3, cat.Tables());
    n := 3 + m;
  }

  function BaseKeys(t: Tool): set<Key> {
    {ArtifactKey(ToolSlot(Lexical, t)), ArtifactKey(ToolSlot(Description, t)), ArtifactKey(ToolSlot(InputSchema, t))}
  }

  /** The requirements that a refresh makes of a tool, each fulfilled for its part of the projected contract. */
  predicate ProvidesTexts(c: Content, t: Tool, p: Projections, provider: string) {
    && Provides(c, ToolSlot(Lexical, t), LexicalSpec(p.lexical))
    && Provides(c, ToolSlot(Description, t), EmbeddingSpec(provider, p.description))
    && Provides(c, ToolSlot(InputSchema, t), EmbeddingSpec(provider, p.schema))
  }

  /** A tool has everything that a refresh gives it: the member row, the record, and three requirements fulfilled for its contract. */
  ghost predicate Based(c: Content, t: Tool, o: Tools) {
    && t in c.sources && t in c.lexical && c.lexical[t] == o.project(c.sources[t]).lexical
    && t in c.members && c.members[t] == Member(c.sources[t], Some(c.sources[t]), true)
    && ProvidesTexts(c, t, o.project(c.sources[t]), o.provider)
    && {ToolSlot(Lexical, t), ToolSlot(Description, t), ToolSlot(InputSchema, t)} <= c.attached.Keys
  }

  /** The tool can be found by the texts of its contract: the record and the artifacts are made from them. */
  ghost predicate IndexedAs(c: Content, t: Tool, p: Projections, provider: string) {
    && t in c.lexical && c.lexical[t] == p.lexical
    && {ToolSlot(Lexical, t), ToolSlot(Description, t), ToolSlot(InputSchema, t)} <= c.attached.Keys
    && c.attached[ToolSlot(Lexical, t)].spec == LexicalSpec(p.lexical)
    && c.attached[ToolSlot(Description, t)].spec == EmbeddingSpec(provider, p.description)
    && c.attached[ToolSlot(InputSchema, t)].spec == EmbeddingSpec(provider, p.schema)
  }

  ghost predicate AllIndexed(c: Content, o: Tools) {
    forall t :: t in c.sources ==> IndexedAs(c, t, o.project(c.sources[t]), o.provider)
  }

  /** What populating may change: sources gain the tool, rows are added, and no guidance appears. */
  ghost predicate Populates(c: Content, d: Content, t: Tool, contract: string) {
    && (d.sources == c.sources || d.sources == c.sources[t := contract])
    && c.lexical.Keys <= d.lexical.Keys && d.lexical - {t} == c.lexical - {t} && d.members - {t} == c.members - {t}
    && c.requirements.Keys <= d.requirements.Keys && RowsOnly(c, d, BaseKeys(t))
    && (d.requirements != c.requirements ==> t in d.sources)
    && c.attached.Keys <= d.attached.Keys
    && d.attached.Keys <= c.attached.Keys + {ToolSlot(Lexical, t), ToolSlot(Description, t), ToolSlot(InputSchema, t)}
  }

  /** A source may be added: it is there already, or enrichment has not begun. */
  ghost predicate MayAddSource(db: Db, g: GenerationId, t: Tool)
    requires g in db.generations
  {
    var c := db.generations[g].content;
    t in c.sources || (!Guided(c) && BatchTools(db, g) == {})
  }

  /** The writes for the two base vectors of a tool. */
  function VectorsTxs(artifacts: set<Artifact>, g: GenerationId, t: Tool, p: Projections, o: Tools): seq<Tx> {
    VectorTxs(artifacts, g, Description, t, p.description, o)
    + VectorTxs(artifacts + {VectorFor(artifacts, p.description, o)}, g, InputSchema, t, p.schema, o)
  }

  /** The two base vectors of a tool; the first may be there without the second having been asked for. */
  method EnsureVectors(cat: Catalog, g: GenerationId, t: Tool, p: Projections, o: Tools) returns (e: Option<Error>, ghost n: nat)
    requires Building(cat.Tables(), g) && t in cat.generations[g].content.sources && t in cat.generations[g].content.lexical && Chooses(o.choose)
    modifies cat
    ensures Building(cat.Tables(), g) && OnlyContent(old(cat.Tables()), cat.Tables(), g)
    ensures Grew(old(cat.generations[g].content), cat.generations[g].content, {ToolSlot(Description, t), ToolSlot(InputSchema, t)})
    ensures RowsOnly(old(cat.generations[g].content), cat.generations[g].content, BaseKeys(t) - {ArtifactKey(ToolSlot(Lexical, t))})
    ensures e.None? ==>
              && {ToolSlot(Description, t), ToolSlot(InputSchema, t)} <= cat.generations[g].content.attached.Keys
              && Provides(cat.generations[g].content, ToolSlot(Description, t), EmbeddingSpec(o.provider, p.description))
              && Provides(cat.generations[g].content, ToolSlot(InputSchema, t), EmbeddingSpec(o.provider, p.schema))
    ensures var txs := VectorsTxs(old(cat.artifacts), g, t, p, o);
            n <= |txs| && Ran(old(cat.Tables()), txs[..n], cat.Tables()) && (e.None? ==> n == |txs|)
  {
    hide IndexSound, Exec, Ran, VectorTxs, VectorFor, RowsOnly;
    ghost var described, schemed := ArtifactKey(ToolSlot(Description, t)), ArtifactKey(ToolSlot(InputSchema, t));
    ghost var keys, c0 := BaseKeys(t) - {ArtifactKey(ToolSlot(Lexical, t))}, cat.generations[g].content;
    SameRows(c0, c0, keys);
    ghost var db0, txs := cat.Tables(), VectorsTxs(cat.artifacts, g, t, p, o);
    ghost var first := VectorTxs(cat.artifacts, g, Description, t, p.description, o);
    e, n := EnsureEmbedding(cat, g, Description, t, p.description, o);
    assert txs[..n] == first[..n];
    ghost var db1, c1, m := cat.Tables(), cat.generations[g].content, 0;
    RowsTransitive(c0, c0, c1, keys, {described}, keys);
    if e.Some? { return; }
    e, m := EnsureEmbedding(cat, g, InputSchema, t, p.schema, o);
    RowsTransitive(c0, c1, cat.generations[g].content, keys, {schemed}, keys);
    RowKept(c1, cat.generations[g].content, {schemed}, described);
    assert txs[n..n + m] == VectorTxs(db1.artifacts, g, InputSchema, t, p.schema, o)[..m];
    RanMore(db0, txs, n, m, db1, cat.Tables());
    n := n + m;
  }

  /** The writes that index the texts of a tool: lexical record, description vector, schema vector. */
  function TextTxs(artifacts: set<Artifact>, g: GenerationId, t: Tool, p: Projections, o: Tools): seq<Tx> {
    LexicalTxs(g, t, p.lexical) + VectorsTxs(artifacts + {Artifact(LexicalSpec(p.lexical), p.lexical)}, g, t, p, o)
  }

  /** All writes that give a generation one source: contract, lexical record, description vector, schema vector. */
  function PopulateTxs(artifacts: set<Artifact>, g: GenerationId, t: Tool, contract: string, o: Tools): seq<Tx> {
    SourceTxs(g, t, contract) + TextTxs(artifacts, g, t, o.project(contract), o)
  }

  /** Indexing the texts of a source leaves sources, members and other tools alone. */
  ghost predicate AddsTexts(c: Content, d: Content, t: Tool) {
    && d == c.(lexical := d.lexical, requirements := d.requirements, attached := d.attached)
    && c.lexical.Keys <= d.lexical.Keys && d.lexical - {t} == c.lexical - {t}
    && c.requirements.Keys <= d.requirements.Keys && RowsOnly(c, d, BaseKeys(t))
    && c.attached.Keys <= d.attached.Keys
    && d.attached.Keys <= c.attached.Keys + {ToolSlot(Lexical, t), ToolSlot(Description, t), ToolSlot(InputSchema, t)}
  }

  method IndexTexts(cat: Catalog, g: GenerationId, t: Tool, p: Projections, o: Tools) returns (e: Option<Error>, ghost n: nat)
    requires Building(cat.Tables(), g) && t in cat.generations[g].content.sources && Chooses(o.choose)
    modifies cat
    ensures Building(cat.Tables(), g) && OnlyContent(old(cat.Tables()), cat.Tables(), g)
    ensures AddsTexts(old(cat.generations[g].content), cat.generations[g].content, t)
    ensures var d := cat.generations[g].content;
            e.None? ==>
              && t in d.lexical && d.lexical[t] == p.lexical && ProvidesTexts(d, t, p, o.provider)
              && {ToolSlot(Lexical, t), ToolSlot(Description, t), ToolSlot(InputSchema, t)} <= d.attached.Keys
    ensures var txs := TextTxs(old(cat.artifacts), g, t, p, o);
            n <= |txs| && Ran(old(cat.Tables()), txs[..n], cat.Tables()) && (e.None? ==> n == |txs|)
  {
    hide IndexSound, Exec, Ran, VectorsTxs, LexicalTxs, OnlyContent, RowsOnly, Grew;
    ghost var words, others := ArtifactKey(ToolSlot(Lexical, t)), BaseKeys(t) - {ArtifactKey(ToolSlot(Lexical, t))};
    ghost var db0, txs, m, c0 := cat.Tables(), TextTxs(cat.artifacts, g, t, p, o), 0, cat.generations[g].content;
    SameRows(c0, c0, BaseKeys(t));
    e, n := StoreLexical(cat, g, t, p.lexical);
    ghost var db1, c1 := cat.Tables(), cat.generations[g].content;
    RowsTransitive(c0, c0, c1, BaseKeys(t), {words}, BaseKeys(t));
    GrewIs(c0.(lexical := c1.lexical), c1, {ToolSlot(Lexical, t)});
    assert txs[..n] == LexicalTxs(g, t, p.lexical)[..n];
    if e.Some? { return; }
    e, m := EnsureVectors(cat, g, t, p, o);
    ghost var c2 := cat.generations[g].content;
    OnlyContentTransitive(db0, db1, cat.Tables(), g);
    RowsTransitive(c0, c1, c2, BaseKeys(t), others, BaseKeys(t));
    RowKept(c1, c2, others, words);
    GrewIs(c1, c2, {ToolSlot(Description, t), ToolSlot(InputSchema, t)});
    assert txs[5..5 + m] == VectorsTxs(db1.artifacts, g, t, p, o)[..m];
    RanMore(db0, txs, 5, m, db1, cat.Tables());
    n := 5 + m;
  }

  method PopulateTool(cat: Catalog, g: GenerationId, t: Tool, contract: string, o: Tools) returns (e: Option<Error>, ghost n: nat)
    requires Building(cat.Tables(), g) && MayAddSource(cat.Tables(), g, t) && Chooses(o.choose)
    modifies cat
    ensures Building(cat.Tables(), g) && OnlyContent(old(cat.Tables()), cat.Tables(), g)
    ensures Populates(old(cat.generations[g].content), cat.generations[g].content, t, contract)
    ensures e.None? ==>
              && Based(cat.generations[g].content, t, o)
              && cat.generations[g].content.sources == old(cat.generations[g].content.sources)[t := contract]
    ensures var txs := PopulateTxs(old(cat.artifacts), g, t, contract, o);
            n <= |txs| && Ran(old(cat.Tables()), txs[..n], cat.Tables()) && (e.None? ==> n == |txs|)
  {
    hide IndexSound, Exec, Ran, TextTxs, OnlyContent, RowsOnly, ProvidesTexts;
    var p := o.project(contract);
    ghost var db0, txs, m, c0 := cat.Tables(), PopulateTxs(cat.artifacts, g, t, contract, o), 0, cat.generations[g].content;
    e, n := PutSourceIn(cat, g, t, contract);
    ghost var db1, c1 := cat.Tables(), cat.generations[g].content;
    SameRows(c0, c1, BaseKeys(t));
    assert txs[..n] == SourceTxs(g, t, contract)[..n];
    if e.Some? { return; }
    e, m := IndexTexts(cat, g, t, p, o);
    OnlyContentTransitive(db0, db1, cat.Tables(), g);
    RowsTransitive(c0, c1, cat.generations[g].content, BaseKeys(t), BaseKeys(t), BaseKeys(t));
    assert txs[2..2 + m] == TextTxs(db1.artifacts, g, t, p, o)[..m];
    RanMore(db0, txs, 2, m, db1, cat.Tables());
    n := 2 + m;
  }

  lemma GrewIs(c: Content, d: Content, slots: set<Slot>)
    requires Grew(c, d, slots)
    ensures d.sources == c.sources && d.members == c.members && d.lexical == c.lexical
    ensures c.attached.Keys <= d.attached.Keys <= c.attached.Keys + slots && c.requirements.Keys <= d.requirements.Keys
  {
  }
}
