/**
 The operations of the index service: refresh and commit. Each may stop after any write, and each keeps
 the index sound.
 */
module IndexService {
  import opened Common
  import opened ServerConfig
  import opened CatalogModel
  import opened CatalogTables
  import opened GreedyBatches
  import opened IndexInvariant
  import opened IndexBuild
  import opened IndexEnrichment
  import opened Submission
  import opened Replay
  import opened IndexRefresh
  import opened Fulfilment
  import opened ToolPreparation
  import opened CapabilityPreparation

  // ---------------------------------------------------------------------------------------------
  // Commit
  // ---------------------------------------------------------------------------------------------

  lemma StatusKeeps(db: Db, u: Db)
    requires IndexSound(db) && u.batches == db.batches && u.generations.Keys == db.generations.Keys
    requires forall g :: g in db.generations ==> u.generations[g].content == db.generations[g].content
    requires OneActive(u.generations) && PromotedReady(u.generations) && OneStagingPerHash(u.generations)
    ensures IndexSound(u)
  {
    hide GenerationSound;
    forall g | g in u.generations ensures BatchTools(u, g) == BatchTools(db, g) && ReconciledTools(u, g) == ReconciledTools(db, g) {
      SameWork(db, u, g);
    }
  }

  lemma PromoteKeeps(db: Db, g: GenerationId, hash: string)
    requires IndexSound(db) && Exec(db, Promote(g, hash)).Ok?
    ensures IndexSound(Exec(db, Promote(g, hash)).value)
  {
    hide IndexSound, PromotedReady, OneActive;
    var u := Exec(db, Promote(g, hash)).value;
    StatusOf(db);
    TxKeepsActive(db, Promote(g, hash));
    StatusKeeps(db, u);
  }

  /** Whether some required batch of the generation has no accepted response. */
  predicate RequiredPending(batches: map<BatchId, Batch>, g: GenerationId) {
    exists b :: b in batches && b.generation == g && batches[b].required && batches[b].accepted.None?
  }

  /** Promotes the staging generation of the current routing state, if it is complete. */
  method Commit(cat: Catalog, g: GenerationId, hash: string, maxTools: nat, choose: set<Artifact> -> Artifact, valid: bool) returns (e: Option<Error>)
    requires IndexSound(cat.Tables())
    modifies cat
    ensures IndexSound(cat.Tables()) && KeepsRows(old(cat.Tables()), cat.Tables())
    ensures e.None? ==>
              && g in cat.generations && cat.generations[g].status == Active && cat.generations[g].hash == hash
              && cat.generations[g].sourceSet == Some(cat.generations[g].content.sources)
              && cat.dirty == map[] && !RequiredPending(cat.batches, g)
  {
    hide IndexSound, SameSources, RowsAgree, Asking, Recapping, CapabilityHandedOut, CapabilityRepaired, Ran, AskTxs, HierarchyOf, Reusable;
    ghost var db0 := cat.Tables();
    e := PrepareCapabilityReconciliation(cat, g, maxTools, choose, valid);
    forall provider | RowsAgree(db0, provider) ensures RowsAgree(cat.Tables(), provider) {
      ReconcilingKeepsRows(db0, cat.Tables(), g, provider);
    }
    if e.Some? { return; }
    if RequiredPending(cat.batches, g) {
      return Some(GenerationIncomplete);
    }
    ghost var db := cat.Tables();
    e := cat.PromoteGeneration(g, hash);
    if e.None? {
      PromoteKeeps(db, g, hash);
      SameContentsKeepRows(db, cat.Tables());
    }
  }

  // ---------------------------------------------------------------------------------------------
  // Refresh
  // ---------------------------------------------------------------------------------------------

  /** The staging generation of a routing state; there is at most one. */
  method StagingForHash(cat: Catalog, hash: string) returns (found: Option<GenerationId>)
    ensures found.Some? ==>
              found.value in cat.generations && cat.generations[found.value].status == Staging && cat.generations[found.value].hash == hash
    ensures found.None? ==> forall g :: g in cat.generations ==> !(cat.generations[g].status == Staging && cat.generations[g].hash == hash)
  {
    if g :| g in cat.generations && cat.generations[g].status == Staging && cat.generations[g].hash == hash {
      found := Some(g);
    } else {
      found := None;
    }
  }

  lemma StatusOf(db: Db)
    requires IndexSound(db)
    ensures OneActive(db.generations) && PromotedReady(db.generations) && OneStagingPerHash(db.generations)
  {
    hide GenerationSound;
  }

  lemma NoEmptyGeneration(db: Db)
    requires IndexSound(db)
    ensures "" !in db.generations
  {
    hide GenerationSound;
  }

  lemma StaleKeeps(gs: map<GenerationId, Generation>, hash: string)
    requires OneActive(gs) && PromotedReady(gs) && OneStagingPerHash(gs)
    ensures var u := SupersedeStale(gs, hash); OneActive(u) && PromotedReady(u) && OneStagingPerHash(u)
  {
    hide MembersReady, RequirementsReady;
  }

  lemma ReconcileKeeps(db: Db, hash: string)
    requires IndexSound(db)
    ensures IndexSound(db.(generations := SupersedeStale(db.generations, hash)))
  {
    hide IndexSound;
    StatusOf(db);
    StaleKeeps(db.generations, hash);
    StatusKeeps(db, db.(generations := SupersedeStale(db.generations, hash)));
  }

  lemma SupersedeKeeps(db: Db, g: GenerationId)
    requires Building(db, g)
    ensures IndexSound(db.(generations := db.generations[g := db.generations[g].(status := Superseded)]))
  {
    hide IndexSound;
    StatusOf(db);
    StatusKeeps(db, db.(generations := db.generations[g := db.generations[g].(status := Superseded)]));
  }

  lemma CreateKeeps(db: Db, g: GenerationId, hash: string)
    requires IndexSound(db) && g != "" && g !in db.generations
    requires forall h :: h in db.generations ==> !(db.generations[h].status == Staging && db.generations[h].hash == hash)
    ensures var u := db.(generations := db.generations[g := Generation(Staging, hash, None, EmptyContent)]);
            Building(u, g) && BatchTools(u, g) == {} && !Guided(u.generations[g].content)
  {
    hide GenerationSound;
    var u := db.(generations := db.generations[g := Generation(Staging, hash, None, EmptyContent)]);
    forall h | h in u.generations ensures GenerationSound(u.generations[h].content, BatchTools(u, h), ReconciledTools(u, h)) {
      SameWork(db, u, h);
      if h == g {
        assert BatchTools(u, g) == {} && ReconciledTools(u, g) == {};
        EmptySound();
      }
    }
    assert BatchTools(u, g) == {};
  }

  lemma EmptySound()
    ensures GenerationSound(EmptyContent, {}, {})
  {
  }

  /** A generation without sources has no guidance and no batches yet. */
  lemma UnpopulatedMayGrow(db: Db, g: GenerationId)
    requires Building(db, g) && db.generations[g].content.sources == map[]
    ensures !Guided(db.generations[g].content) && BatchTools(db, g) == {}
  {
    StaysSound(db, g);
  }

  /** Puts everything the snapshots show into a generation. */
  method Populate(cat: Catalog, g: GenerationId, servers: seq<ServerEntry>, snapshots: map<string, Snapshot>, o: Tools) returns (e: Option<Error>)
    requires Building(cat.Tables(), g) && MayPopulate(cat.Tables(), g, SourcesOf(map[], servers, snapshots).Keys) && Chooses(o.choose)
    modifies cat
    ensures Building(cat.Tables(), g) && OnlyContent(old(cat.Tables()), cat.Tables(), g) && KeepsRows(old(cat.Tables()), cat.Tables())
    ensures e.None? ==>
              && Covered(servers, snapshots)
              && cat.generations[g].content.sources == SourcesOf(old(cat.generations[g].content.sources), servers, snapshots)
              && AllBased(cat.generations[g].content, SourcesOf(map[], servers, snapshots).Keys, o)
  {
    hide IndexSound, Exec, Based, MayPopulate, RowsAgree;
    ghost var all := SourcesOf(map[], servers, snapshots).Keys;
    ghost var db0 := cat.Tables();
    assert OnlyContent(db0, db0, g);
    e := None;
    for i := 0 to |servers|
      invariant Building(cat.Tables(), g) && OnlyContent(db0, cat.Tables(), g) && MayPopulate(cat.Tables(), g, all)
      invariant Covered(servers[..i], snapshots) && e.None? && KeepsRows(db0, cat.Tables())
      invariant cat.generations[g].content.sources == SourcesOf(db0.generations[g].content.sources, servers[..i], snapshots)
      invariant AllBased(cat.generations[g].content, SourcesOf(map[], servers[..i], snapshots).Keys, o)
    {
      assert servers[..i + 1][..i] == servers[..i];
      var entry := servers[i];
      if entry.mode == Disabled {
        continue;
      }
      if entry.id !in snapshots {
        return Some(MissingArgument);
      }
      forall k | 0 <= k < |snapshots[entry.id]| && entry.ToolExposed(snapshots[entry.id][k].0)
        ensures Tool(entry.id, snapshots[entry.id][k].0) in all
      {
        ToolsAreSources(servers, snapshots, i, k);
      }
      ghost var db := cat.Tables();
      e := PopulateServer(cat, g, entry, snapshots[entry.id], o, SourcesOf(map[], servers[..i], snapshots), all);
      OnlyContentTransitive(db0, db, cat.Tables(), g);
      KeepsRowsTransitive(db0, db, cat.Tables());
      if e.Some? { return; }
    }
    assert servers[..|servers|] == servers;
  }

  predicate StagingWith(gs: map<GenerationId, Generation>, g: GenerationId, hash: string) {
    g in gs && gs[g].status == Staging && gs[g].hash == hash
  }

  /**
   The staging generation of a refresh: no other is left, and one of the same routing state from before is
   the same one exactly if it had no sources or has the current ones.
   */
  ghost predicate KeptIfUnchanged(a: map<GenerationId, Generation>, b: map<GenerationId, Generation>, g: GenerationId, hash: string, current: Sources) {
    && StagingWith(b, g, hash)
    && (forall h :: h in b && b[h].status == Staging ==> h == g)
    && (forall h :: StagingWith(a, h, hash) ==>
          h in b && (h == g <==> a[h].content.sources == map[] || a[h].content.sources == current))
  }

  ghost predicate Opened(a: Db, b: Db, g: GenerationId, hash: string, current: Sources) {
    && KeptIfUnchanged(a.generations, b.generations, g, hash, current)
    && (b.generations[g].content.sources == map[] || b.generations[g].content.sources == current)
    && b.dirty == a.dirty
  }

  /** Keeps the staging generation if its sources are unchanged, and otherwise supersedes it and begins a new one. */
  method OpenGeneration(cat: Catalog, hash: string, servers: seq<ServerEntry>, snapshots: map<string, Snapshot>, newId: GenerationId)
    returns (e: Option<Error>, g: GenerationId)
    requires IndexSound(cat.Tables())
    requires forall h :: h in cat.generations && cat.generations[h].status == Staging ==> cat.generations[h].hash == hash
    modifies cat
    ensures IndexSound(cat.Tables()) && KeepsRows(old(cat.Tables()), cat.Tables())
    ensures e.None? ==> Building(cat.Tables(), g) && Opened(old(cat.Tables()), cat.Tables(), g, hash, SourcesOf(map[], servers, snapshots))
  {
    hide IndexSound, PromotedReady, OneActive, BatchTools, KeepsRows;
    g := newId;
    SameContentsKeepRows(cat.Tables(), cat.Tables());
    StatusOf(cat.Tables());
    var found := StagingForHash(cat, hash);
    if found.Some? {
      g := found.value;
      var changed := SourcesChanged(cat.generations[g].content.sources, servers, snapshots);
      if changed.Err? { return Some(changed.error), g; }
      if !changed.value {
        NoEmptyGeneration(cat.Tables());
        return None, g;
      }
      NoEmptyGeneration(cat.Tables());
      SupersedeKeeps(cat.Tables(), g);
      SupersedeKeepsRows(cat.Tables(), g);
      e := cat.Supersede(g);
      if e.Some? { return; }
      g := newId;
    }
    ghost var db := cat.Tables();
    e := BeginGeneration(cat, g, hash);
    KeepsRowsTransitive(old(cat.Tables()), db, cat.Tables());
  }

  lemma SupersedeKeepsRows(db: Db, g: GenerationId)
    requires g in db.generations
    ensures KeepsRows(db, db.(generations := db.generations[g := db.generations[g].(status := Superseded)]))
  {
    SameContentsKeepRows(db, db.(generations := db.generations[g := db.generations[g].(status := Superseded)]));
  }

  lemma CreateKeepsRows(db: Db, g: GenerationId, hash: string)
    requires IndexSound(db) && g !in db.generations
    ensures KeepsRows(db, db.(generations := db.generations[g := Generation(Staging, hash, None, EmptyContent)]))
  {
    hide GenerationSound;
    SameContentsKeepRows(db, db.(generations := db.generations[g := Generation(Staging, hash, None, EmptyContent)]));
  }

  /** Begins a generation of a routing state that has none in staging. */
  method BeginGeneration(cat: Catalog, g: GenerationId, hash: string) returns (e: Option<Error>)
    requires IndexSound(cat.Tables())
    requires forall h :: h in cat.generations ==> !(cat.generations[h].status == Staging && cat.generations[h].hash == hash)
    modifies cat
    ensures IndexSound(cat.Tables()) && KeepsRows(old(cat.Tables()), cat.Tables())
    ensures Wrote(old(cat.Tables()), CreateStaging(g, hash), e, cat.Tables())
    ensures e.None? ==>
              && Building(cat.Tables(), g) && g !in old(cat.generations)
              && cat.Tables() == old(cat.Tables()).(generations := old(cat.generations)[g := Generation(Staging, hash, None, EmptyContent)])
  {
    hide IndexSound, KeepsRows;
    ghost var db := cat.Tables();
    SameContentsKeepRows(db, db);
    e := cat.PutGeneration(g, hash);
    if e.None? {
      CreateKeeps(db, g, hash);
      CreateKeepsRows(db, g, hash);
    }
  }

  /** The mode that the configuration gives each server. */
  function Modes(servers: seq<ServerEntry>): map<string, Mode> {
    if servers == [] then map[]
    else Modes(servers[..|servers| - 1])[servers[|servers| - 1].id := servers[|servers| - 1].mode]
  }

  const SERVER_PREFIX := "server:"

  /** A marker of a server that the refresh has rebuilt, or that is no longer in use. */
  predicate Clearable(p: string, modes: map<string, Mode>, rebuilt: set<string>) {
    && SERVER_PREFIX <= p
    && var id := p[|SERVER_PREFIX|..];
       (id in modes && modes[id] != Disabled ==> id in rebuilt)
  }

  /** The markers that remain after the observed ones were cleared where they are unchanged. */
  function Remaining(dirty: map<string, Marker>, observed: map<string, Marker>, modes: map<string, Mode>, rebuilt: set<string>): map<string, Marker> {
    map p | p in dirty && !(p in observed && observed[p] == dirty[p] && Clearable(p, modes, rebuilt)) :: dirty[p]
  }

  /** The mode of a server is that of the last entry with its id. */
  lemma {:induction false} ModesMean(servers: seq<ServerEntry>, id: string)
    ensures id in Modes(servers) <==> exists i :: 0 <= i < |servers| && servers[i].id == id
    ensures forall i :: 0 <= i < |servers| && servers[i].id == id && (forall k :: i < k < |servers| ==> servers[k].id != id) ==>
              id in Modes(servers) && Modes(servers)[id] == servers[i].mode
    decreases |servers|
  {
    if servers != [] {
      var n := |servers| - 1;
      ModesMean(servers[..n], id);
      assert forall i :: 0 <= i < n ==> servers[..n][i] == servers[i];
      assert servers[n].id == id || id !in Modes(servers) || exists i :: 0 <= i < n && servers[..n][i].id == id;
    }
  }

  /** The server is configured and not disabled. */
  ghost predicate InUse(servers: seq<ServerEntry>, id: string) {
    exists i :: 0 <= i < |servers| && servers[i].id == id && servers[i].mode != Disabled && forall k :: i < k < |servers| ==> servers[k].id != id
  }

  /** Of the markers a refresh has seen, exactly those of servers go that it has rebuilt or that are not in use, if they are unchanged. */
  lemma RemainingMeans(dirty: map<string, Marker>, observed: map<string, Marker>, servers: seq<ServerEntry>, rebuilt: set<string>, p: string)
    ensures var r := Remaining(dirty, observed, Modes(servers), rebuilt);
            && (p in r ==> p in dirty && r[p] == dirty[p])
            && (p in dirty ==>
                  (p !in r <==> p in observed && observed[p] == dirty[p]
                                && exists id :: p == "server:" + id && (InUse(servers, id) ==> id in rebuilt)))
  {
    if SERVER_PREFIX <= p {
      var id := p[|SERVER_PREFIX|..];
      assert p == SERVER_PREFIX + id;
      ModesInUse(servers, id);
      assert forall other :: p == "server:" + other ==> other == id by {
        forall other | p == "server:" + other ensures other == id {
          assert p[7..] == other;
        }
      }
    }
  }

  lemma ModesInUse(servers: seq<ServerEntry>, id: string)
    ensures InUse(servers, id) <==> id in Modes(servers) && Modes(servers)[id] != Disabled
  {
    ModesMean(servers, id);
    if i :| 0 <= i < |servers| && servers[i].id == id {
      var k := LastOf(servers, id, i);
    }
  }

  lemma {:induction false} LastOf(servers: seq<ServerEntry>, id: string, i: nat) returns (k: nat)
    requires i < |servers| && servers[i].id == id
    ensures k < |servers| && servers[k].id == id && forall j :: k < j < |servers| ==> servers[j].id != id
    decreases |servers| - i
  {
    if j :| i < j < |servers| && servers[j].id == id {
      k := LastOf(servers, id, j);
    } else {
      k := i;
    }
  }

  /** One more observed marker is dealt with. */
  lemma RemainingNext(dirty: map<string, Marker>, done: map<string, Marker>, p: string, m: Marker, modes: map<string, Mode>, rebuilt: set<string>)
    requires p !in done
    ensures var r := Remaining(dirty, done, modes, rebuilt);
            Remaining(dirty, done[p := m], modes, rebuilt) ==
              if Clearable(p, modes, rebuilt) && p in r && r[p] == m then r - {p} else r
  {
  }

  lemma DirtyKeeps(db: Db, dirty: map<string, Marker>)
    requires IndexSound(db)
    ensures IndexSound(db.(dirty := dirty))
  {
    hide GenerationSound;
    forall g | g in db.generations {
      SameWork(db, db.(dirty := dirty), g);
    }
  }

  /** Clears the markers that the refresh has dealt with, unless they changed since. */
  method ClearObserved(cat: Catalog, observed: map<string, Marker>, servers: seq<ServerEntry>, snapshots: map<string, Snapshot>) returns (e: Option<Error>)
    requires IndexSound(cat.Tables())
    modifies cat
    ensures IndexSound(cat.Tables()) && cat.Tables() == old(cat.Tables()).(dirty := cat.dirty)
    ensures e.None? ==> cat.dirty == Remaining(old(cat.dirty), observed, Modes(servers), snapshots.Keys)
  {
    hide IndexSound, Remaining, Clearable, Modes;
    var modes := CollectModes(servers);
    var todo := observed.Keys;
    ghost var db0, done := cat.Tables(), map[];
    NothingCleared(db0.dirty, modes, snapshots.Keys);
    while todo != {}
      invariant todo <= observed.Keys && done == observed - todo
      invariant cat.Tables() == db0.(dirty := cat.dirty)
      invariant cat.dirty == Remaining(db0.dirty, done, modes, snapshots.Keys)
      decreases |todo|
    {
      var p :| p in todo;
      todo := todo - {p};
      RemainingNext(db0.dirty, done, p, observed[p], modes, snapshots.Keys);
      done := done[p := observed[p]];
      assert done == observed - todo;
      if Clearable(p, modes, snapshots.Keys) {
        e := cat.ClearIfUnchanged(p, observed[p]);
        if e.Some? {
          DirtyKeeps(db0, cat.dirty);
          return;
        }
      }
    }
    assert done == observed;
    DirtyKeeps(db0, cat.dirty);
    e := None;
  }

  lemma NothingCleared(dirty: map<string, Marker>, modes: map<string, Mode>, rebuilt: set<string>)
    ensures Remaining(dirty, map[], modes, rebuilt) == dirty
  {
  }

  method CollectModes(servers: seq<ServerEntry>) returns (modes: map<string, Mode>)
    ensures modes == Modes(servers)
  {
    modes := map[];
    for i := 0 to |servers|
      invariant modes == Modes(servers[..i])
    {
      assert servers[..i + 1][..i] == servers[..i];
      modes := modes[servers[i].id := servers[i].mode];
    }
    assert servers[..|servers|] == servers;
  }

  /** A refresh that succeeded. */
  ghost predicate Refreshed(a: Db, b: Db, g: GenerationId, hash: string, servers: seq<ServerEntry>, snapshots: map<string, Snapshot>) {
    && KeptIfUnchanged(a.generations, b.generations, g, hash, SourcesOf(map[], servers, snapshots))
    && b.generations[g].content.sources == SourcesOf(map[], servers, snapshots)
    && SchemasDeclared(b.generations[g].content)
    && b.dirty == Remaining(a.dirty, a.dirty, Modes(servers), snapshots.Keys)
  }

  lemma BasedDeclares(db: Db, g: GenerationId, o: Tools)
    requires Building(db, g) && AllBased(db.generations[g].content, db.generations[g].content.sources.Keys, o)
    ensures SchemasDeclared(db.generations[g].content)
  {
    StaysSound(db, g);
    var c := db.generations[g].content;
    forall t | t in c.sources ensures ArtifactKey(ToolSlot(InputSchema, t)) in c.requirements {
      assert Based(c, t, o);
    }
  }

  /** The writes of a refresh into the generation that it opened. */
  method FillGeneration(cat: Catalog, g: GenerationId, servers: seq<ServerEntry>, snapshots: map<string, Snapshot>, limits: Limits, o: Tools)
    returns (e: Option<Error>)
    requires Building(cat.Tables(), g) && Faithful(o) && limits.batchSize > 0
    requires var c := cat.generations[g].content.sources; c == map[] || c == SourcesOf(map[], servers, snapshots)
    modifies cat
    ensures IndexSound(cat.Tables()) && cat.dirty == old(cat.dirty)
    ensures cat.generations.Keys == old(cat.generations.Keys)
    ensures forall h :: h in cat.generations ==>
              cat.generations[h] == old(cat.generations)[h].(content := cat.generations[h].content)
    ensures e.None? ==>
              && cat.generations[g].content.sources == SourcesOf(map[], servers, snapshots)
              && SchemasDeclared(cat.generations[g].content)
              && AllBased(cat.generations[g].content, cat.generations[g].content.sources.Keys, o)
    ensures RowsAgree(old(cat.Tables()), o.provider) ==>
              RowsAgree(cat.Tables(), o.provider) && (e.None? ==> AllProvided(cat.Tables(), g))
  {
    hide IndexSound, Exec, RowsAgree, AllBased, AllProvided, SchemasDeclared, SameSources;
    ghost var db0, base, current := cat.Tables(), cat.generations[g].content.sources, SourcesOf(map[], servers, snapshots);
    if base == map[] {
      UnpopulatedMayGrow(db0, g);
    }
    SourcesOnTop(base, servers, snapshots);
    assert base + current == current;
    e := Populate(cat, g, servers, snapshots, o);
    if e.Some? { return; }
    ghost var db1 := cat.Tables();
    BasedDeclares(db1, g, o);
    e := EnrichFilled(cat, g, limits, o);
    SameGenerations(db1, cat.Tables());
  }

  lemma SameGenerations(a: Db, b: Db)
    requires SameSources(a, b)
    ensures b.generations.Keys == a.generations.Keys && b.dirty == a.dirty
    ensures forall h :: h in b.generations ==>
              b.generations[h] == a.generations[h].(content := b.generations[h].content)
              && b.generations[h].content.sources == a.generations[h].content.sources
  {
  }

  /** The preparation that ends a refresh keeps what the sources have. */
  method EnrichFilled(cat: Catalog, g: GenerationId, limits: Limits, o: Tools) returns (e: Option<Error>)
    requires Building(cat.Tables(), g) && Faithful(o) && limits.batchSize > 0
    requires AllBased(cat.generations[g].content, cat.generations[g].content.sources.Keys, o) && SchemasDeclared(cat.generations[g].content)
    modifies cat
    ensures IndexSound(cat.Tables()) && SameSources(old(cat.Tables()), cat.Tables()) && g in cat.generations
    ensures e.None? ==>
              && SchemasDeclared(cat.generations[g].content)
              && AllBased(cat.generations[g].content, cat.generations[g].content.sources.Keys, o)
    ensures RowsAgree(old(cat.Tables()), o.provider) ==>
              RowsAgree(cat.Tables(), o.provider) && (e.None? ==> AllProvided(cat.Tables(), g))
  {
    hide IndexSound, RowsAgree, Based, HandedOut, Interrupted, Declaring, Completed, RepairedFrom, AllProvided, SchemasDeclared, SameSources;
    ghost var db1 := cat.Tables();
    e := PrepareToolEnrichment(cat, g, limits, o);
    ghost var db2 := cat.Tables();
    assert Prepares(db1, db2, g, e.None?, limits, o);
    SourcesKept(db1, db2, g);
    if RowsAgree(db1, o.provider) {
      PreparesKeepsRows(db1, db2, g, e.None?, limits, o);
    }
    if e.None? {
      SchemasStay(db1, db2, g);
      forall t | t in cat.generations[g].content.sources.Keys ensures Based(cat.generations[g].content, t, o) {
        PreparesKeepsBased(db1, db2, g, limits, o, t);
      }
    }
  }

  lemma SchemasStay(a: Db, b: Db, g: GenerationId)
    requires SameSources(a, b) && g in a.generations && SchemasDeclared(a.generations[g].content)
    ensures SchemasDeclared(b.generations[g].content)
  {
  }

  lemma StaleKeepsRows(db: Db, hash: string)
    ensures KeepsRows(db, db.(generations := SupersedeStale(db.generations, hash)))
  {
    SameContentsKeepRows(db, db.(generations := SupersedeStale(db.generations, hash)));
  }

  /** The first write of a refresh: generations of an earlier routing state are retired. */
  method RetireStale(cat: Catalog, hash: string) returns (e: Option<Error>)
    requires IndexSound(cat.Tables())
    modifies cat
    ensures IndexSound(cat.Tables())
    ensures cat.Tables() == old(cat.Tables()).(generations := cat.generations)
    ensures cat.generations == if e.None? then SupersedeStale(old(cat.generations), hash) else old(cat.generations)
    ensures KeepsRows(old(cat.Tables()), cat.Tables()) && (e.None? ==> hash != "")
  {
    hide IndexSound, KeepsRows;
    StaleKeepsRows(cat.Tables(), hash);
    SameContentsKeepRows(cat.Tables(), cat.Tables());
    ReconcileKeeps(cat.Tables(), hash);
    e := cat.Reconcile(hash);
  }

  /**
   Refreshes the index of a routing state from the servers' snapshots. It keeps the index sound wherever
   it stops, and when it succeeds the staging generation has exactly the current sources, each indexed by
   the texts of its contract.
   */
  method Refresh(cat: Catalog, hash: string, servers: seq<ServerEntry>, snapshots: map<string, Snapshot>, newId: GenerationId, limits: Limits, o: Tools)
    returns (e: Option<Error>, g: GenerationId)
    requires IndexSound(cat.Tables()) && Faithful(o) && limits.batchSize > 0
    modifies cat
    ensures IndexSound(cat.Tables())
    ensures e.None? ==>
              && Refreshed(old(cat.Tables()), cat.Tables(), g, hash, servers, snapshots)
              && AllBased(cat.generations[g].content, cat.generations[g].content.sources.Keys, o) && AllIndexed(cat.generations[g].content, o)
              && Building(cat.Tables(), g) && hash != ""
    ensures RowsAgree(old(cat.Tables()), o.provider) ==>
              RowsAgree(cat.Tables(), o.provider) && (e.None? ==> AllProvided(cat.Tables(), g))
  {
    hide IndexSound, Exec, SourcesOf, Modes, SchemasDeclared, RowsAgree, AllBased, AllProvided, AllIndexed;
    g := newId;
    ghost var gs0 := cat.generations;
    e := RetireStale(cat, hash);
    if e.Some? { return; }
    var observed := cat.dirty;
    e, g := OpenGeneration(cat, hash, servers, snapshots, newId);
    if e.Some? { return; }
    ghost var gs2 := cat.generations;
    e := FillGeneration(cat, g, servers, snapshots, limits, o);
    if e.Some? { return; }
    assert KeptIfUnchanged(gs0, cat.generations, g, hash, SourcesOf(map[], servers, snapshots));
    ghost var db3 := cat.Tables();
    e := ClearObserved(cat, observed, servers, snapshots);
    SameContentsKeepRows(db3, cat.Tables());
    ProvidedStays(db3, cat.Tables(), g);
    BasedIsIndexed(cat.Tables(), g, o);
  }

  lemma ProvidedStays(a: Db, b: Db, g: GenerationId)
    requires b.batches == a.batches && b.generations == a.generations && g in a.generations
    ensures AllProvided(a, g) ==> AllProvided(b, g)
  {
  }
}
