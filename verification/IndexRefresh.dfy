/**
 Index refresh: the sources that the servers' snapshots show, whether the staging generation still
 has exactly those, and the refresh itself.
 */
module IndexRefresh {
  import opened Common
  import opened ServerConfig
  import opened CatalogModel
  import opened CatalogTables
  import opened IndexInvariant
  import opened IndexBuild

  /** The tools a server listed: names and contracts. */
  type Snapshot = seq<(string, string)>

  type Sources = map<Tool, string>

  function Listed(base: Sources, entry: ServerEntry, tools: Snapshot): Sources {
    if tools == [] then base
    else
      var rest, tool := Listed(base, entry, tools[..|tools| - 1]), tools[|tools| - 1];
      if entry.ToolExposed(tool.0) then rest[Tool(entry.id, tool.0) := tool.1] else rest
  }

  /** The sources of all servers that are not disabled, on top of `base`. */
  function SourcesOf(base: Sources, servers: seq<ServerEntry>, snapshots: map<string, Snapshot>): Sources {
    if servers == [] then base
    else
      var rest, entry := SourcesOf(base, servers[..|servers| - 1], snapshots), servers[|servers| - 1];
      if entry.mode == Disabled || entry.id !in snapshots then rest else Listed(rest, entry, snapshots[entry.id])
  }

  predicate Covered(servers: seq<ServerEntry>, snapshots: map<string, Snapshot>) {
    forall i :: 0 <= i < |servers| ==> servers[i].mode == Disabled || servers[i].id in snapshots
  }

  lemma {:induction false} ListedOnTop(base: Sources, more: Sources, entry: ServerEntry, tools: Snapshot)
    ensures Listed(base + more, entry, tools) == base + Listed(more, entry, tools)
  {
    if tools != [] {
      ListedOnTop(base, more, entry, tools[..|tools| - 1]);
    }
  }

  lemma {:induction false} SourcesOnTop(base: Sources, servers: seq<ServerEntry>, snapshots: map<string, Snapshot>)
    ensures SourcesOf(base, servers, snapshots) == base + SourcesOf(map[], servers, snapshots)
  {
    if servers != [] {
      var init, entry := servers[..|servers| - 1], servers[|servers| - 1];
      SourcesOnTop(base, init, snapshots);
      if entry.mode != Disabled && entry.id in snapshots {
        ListedOnTop(base, SourcesOf(map[], init, snapshots), entry, snapshots[entry.id]);
      }
    }
  }

  /** The tools of one server are among those of all servers. */
  lemma {:induction false} ToolsAreSources(servers: seq<ServerEntry>, snapshots: map<string, Snapshot>, i: nat, k: nat)
    requires i < |servers| && servers[i].mode != Disabled && servers[i].id in snapshots
    requires k < |snapshots[servers[i].id]| && servers[i].ToolExposed(snapshots[servers[i].id][k].0)
    ensures Tool(servers[i].id, snapshots[servers[i].id][k].0) in SourcesOf(map[], servers, snapshots)
    decreases |servers|
  {
    var n := |servers| - 1;
    var last, rest := servers[n], SourcesOf(map[], servers[..n], snapshots);
    if i < n {
      ToolsAreSources(servers[..n], snapshots, i, k);
      if last.mode != Disabled && last.id in snapshots {
        ListedKeeps(rest, last, snapshots[last.id], Tool(servers[i].id, snapshots[servers[i].id][k].0));
      }
    } else {
      ListedHas(rest, last, snapshots[last.id], k);
    }
  }

  lemma {:induction false} ListedKeeps(base: Sources, entry: ServerEntry, tools: Snapshot, t: Tool)
    requires t in base
    ensures t in Listed(base, entry, tools)
  {
    if tools != [] {
      ListedKeeps(base, entry, tools[..|tools| - 1], t);
    }
  }

  lemma {:induction false} ListedHas(base: Sources, entry: ServerEntry, tools: Snapshot, k: nat)
    requires k < |tools| && entry.ToolExposed(tools[k].0)
    ensures Tool(entry.id, tools[k].0) in Listed(base, entry, tools)
  {
    if k < |tools| - 1 {
      ListedHas(base, entry, tools[..|tools| - 1], k);
    }
  }

  /** A tool in a server's snapshot that the server's entry exposes. */
  predicate ListsTool(entry: ServerEntry, tools: Snapshot, t: Tool, j: int) {
    0 <= j < |tools| && t == Tool(entry.id, tools[j].0) && entry.ToolExposed(tools[j].0)
  }

  /** The entry at `i` is in use and has a snapshot, which at `j` lists the tool, and the entry exposes it. */
  predicate Lists(servers: seq<ServerEntry>, snapshots: map<string, Snapshot>, t: Tool, i: int, j: int) {
    && 0 <= i < |servers| && servers[i].mode != Disabled && servers[i].id in snapshots
    && ListsTool(servers[i], snapshots[servers[i].id], t, j)
  }

  ghost predicate ListsLast(servers: seq<ServerEntry>, snapshots: map<string, Snapshot>, t: Tool, i: int, j: int) {
    && Lists(servers, snapshots, t, i, j)
    && forall k, l :: Lists(servers, snapshots, t, k, l) ==> k < i || (k == i && l <= j)
  }

  lemma {:induction false} ListedLast(base: Sources, entry: ServerEntry, tools: Snapshot, t: Tool, j: nat)
    requires ListsTool(entry, tools, t, j) && forall l :: ListsTool(entry, tools, t, l) ==> l <= j
    ensures t in Listed(base, entry, tools) && Listed(base, entry, tools)[t] == tools[j].1
  {
    var n := |tools| - 1;
    if j < n {
      assert !ListsTool(entry, tools, t, n);
      forall l | ListsTool(entry, tools[..n], t, l) ensures l <= j {
        assert ListsTool(entry, tools, t, l);
      }
      ListedLast(base, entry, tools[..n], t, j);
    }
  }

  lemma {:induction false} ListedNot(base: Sources, entry: ServerEntry, tools: Snapshot, t: Tool)
    requires forall l :: !ListsTool(entry, tools, t, l)
    ensures t in Listed(base, entry, tools) <==> t in base
    ensures t in base ==> Listed(base, entry, tools)[t] == base[t]
  {
    if tools != [] {
      var n := |tools| - 1;
      assert !ListsTool(entry, tools, t, n);
      forall l ensures !ListsTool(entry, tools[..n], t, l) {
        assert !ListsTool(entry, tools, t, l);
      }
      ListedNot(base, entry, tools[..n], t);
    }
  }

  /** An entry that does not list the tool leaves what the others say about it. */
  lemma LastEntryNot(servers: seq<ServerEntry>, snapshots: map<string, Snapshot>, t: Tool, n: nat)
    requires |servers| == n + 1 && forall l :: !Lists(servers, snapshots, t, n, l)
    ensures var s, rest := SourcesOf(map[], servers, snapshots), SourcesOf(map[], servers[..n], snapshots);
            (t in s <==> t in rest) && (t in rest ==> s[t] == rest[t])
  {
    var entry := servers[n];
    if entry.mode != Disabled && entry.id in snapshots {
      forall l ensures !ListsTool(entry, snapshots[entry.id], t, l) {
        assert !Lists(servers, snapshots, t, n, l);
      }
      ListedNot(SourcesOf(map[], servers[..n], snapshots), entry, snapshots[entry.id], t);
    }
  }

  lemma {:induction false} UnlistedIsNoSource(servers: seq<ServerEntry>, snapshots: map<string, Snapshot>, t: Tool)
    requires forall i, j :: !Lists(servers, snapshots, t, i, j)
    ensures t !in SourcesOf(map[], servers, snapshots)
  {
    if servers != [] {
      var n := |servers| - 1;
      var init := servers[..n];
      forall i, j ensures !Lists(init, snapshots, t, i, j) {
        assert !Lists(servers, snapshots, t, i, j);
      }
      UnlistedIsNoSource(init, snapshots, t);
      LastEntryNot(servers, snapshots, t, n);
    }
  }

  lemma {:induction false} LastListingWins(servers: seq<ServerEntry>, snapshots: map<string, Snapshot>, t: Tool, i: nat, j: nat)
    requires ListsLast(servers, snapshots, t, i, j)
    ensures var s := SourcesOf(map[], servers, snapshots); t in s && s[t] == snapshots[servers[i].id][j].1
  {
    var n := |servers| - 1;
    if i < n {
      forall l ensures !Lists(servers, snapshots, t, n, l) {}
      LastEntryNot(servers, snapshots, t, n);
      assert Lists(servers[..n], snapshots, t, i, j);
      forall k, l | Lists(servers[..n], snapshots, t, k, l) ensures k < i || (k == i && l <= j) {
        assert Lists(servers, snapshots, t, k, l);
      }
      LastListingWins(servers[..n], snapshots, t, i, j);
    } else {
      var entry := servers[n];
      forall l | ListsTool(entry, snapshots[entry.id], t, l) ensures l <= j {
        assert Lists(servers, snapshots, t, n, l);
      }
      ListedLast(SourcesOf(map[], servers[..n], snapshots), entry, snapshots[entry.id], t, j);
    }
  }

  /**
   The sources are exactly the exposed tools that snapshots of enabled servers list, and of several
   listings the last one gives the contract.
   */
  lemma SourcesExactly(servers: seq<ServerEntry>, snapshots: map<string, Snapshot>, t: Tool)
    ensures t in SourcesOf(map[], servers, snapshots) <==> exists i, j :: Lists(servers, snapshots, t, i, j)
    ensures forall i, j :: ListsLast(servers, snapshots, t, i, j) ==>
              t in SourcesOf(map[], servers, snapshots)
              && SourcesOf(map[], servers, snapshots)[t] == snapshots[servers[i].id][j].1
  {
    hide SourcesOf;
    if i, j :| Lists(servers, snapshots, t, i, j) {
      ToolsAreSources(servers, snapshots, i, j);
    } else {
      UnlistedIsNoSource(servers, snapshots, t);
    }
    forall i, j | ListsLast(servers, snapshots, t, i, j)
      ensures t in SourcesOf(map[], servers, snapshots)
              && SourcesOf(map[], servers, snapshots)[t] == snapshots[servers[i].id][j].1
    {
      LastListingWins(servers, snapshots, t, i, j);
    }
  }

  /** A tool that every entry of its server hides is no source. */
  lemma HiddenIsNoSource(servers: seq<ServerEntry>, snapshots: map<string, Snapshot>, t: Tool)
    requires forall i :: 0 <= i < |servers| && servers[i].id == t.server ==> t.name in servers[i].hidden
    ensures t !in SourcesOf(map[], servers, snapshots)
  {
    SourcesExactly(servers, snapshots, t);
  }

  method ListTools(base: Sources, entry: ServerEntry, tools: Snapshot) returns (current: Sources)
    ensures current == Listed(base, entry, tools)
  {
    current := base;
    for j := 0 to |tools|
      invariant current == Listed(base, entry, tools[..j])
    {
      assert tools[..j + 1][..j] == tools[..j];
      if !entry.ToolExposed(tools[j].0) {
        continue;
      }
      current := current[Tool(entry.id, tools[j].0) := tools[j].1];
    }
    assert tools[..|tools|] == tools;
  }

  /** The fingerprints of all exposed tools, or nothing if a snapshot is missing. */
  method CurrentSourceFingerprints(servers: seq<ServerEntry>, snapshots: map<string, Snapshot>) returns (r: Option<Sources>)
    ensures r == if Covered(servers, snapshots) then Some(SourcesOf(map[], servers, snapshots)) else None
  {
    var current: Sources := map[];
    for i := 0 to |servers|
      invariant Covered(servers[..i], snapshots)
      invariant current == SourcesOf(map[], servers[..i], snapshots)
    {
      assert servers[..i + 1][..i] == servers[..i];
      var entry := servers[i];
      if entry.mode == Disabled {
        continue;
      }
      if entry.id !in snapshots {
        return None;
      }
      current := ListTools(current, entry, snapshots[entry.id]);
    }
    assert servers[..|servers|] == servers;
    r := Some(current);
  }

  /** Equal size and every stored pair current means equal maps. */
  lemma SamePairs(stored: Sources, current: Sources)
    requires |stored| == |current| && forall t :: t in stored ==> t in current && current[t] == stored[t]
    ensures stored == current
  {
    assert stored.Keys <= current.Keys;
    SameSize(stored.Keys, current.Keys);
  }

  /** Whether the sources of a staging generation differ from the current ones; one without sources does not count as changed. */
  method SourcesChanged(stored: Sources, servers: seq<ServerEntry>, snapshots: map<string, Snapshot>) returns (r: Result<bool, Error>)
    ensures r.Ok? ==> r.value == (stored != map[] && stored != SourcesOf(map[], servers, snapshots))
    ensures r.Err? <==> stored != map[] && !Covered(servers, snapshots)
  {
    if |stored| == 0 {
      return Ok(false);
    }
    var computed := CurrentSourceFingerprints(servers, snapshots);
    if computed.None? {
      return Err(MissingArgument);
    }
    var current := computed.value;
    if |stored| != |current| {
      return Ok(true);
    }
    var todo := stored.Keys;
    while todo != {}
      invariant todo <= stored.Keys
      invariant forall t :: t in stored.Keys - todo ==> t in current && current[t] == stored[t]
      decreases |todo|
    {
      var t :| t in todo;
      if t !in current || current[t] != stored[t] {
        return Ok(true);
      }
      todo := todo - {t};
    }
    SamePairs(stored, current);
    r := Ok(false);
  }

  // ---------------------------------------------------------------------------------------------
  // Populating a generation from the snapshots
  // ---------------------------------------------------------------------------------------------

  /** Either all tools to be populated are sources already, or enrichment has not begun. */
  ghost predicate MayPopulate(db: Db, g: GenerationId, tools: set<Tool>)
    requires g in db.generations
  {
    var c := db.generations[g].content;
    tools <= c.sources.Keys || (!Guided(c) && BatchTools(db, g) == {})
  }

  ghost predicate AllBased(c: Content, tools: set<Tool>, o: Tools) {
    forall t :: t in tools ==> Based(c, t, o)
  }

  /** What a refresh gives a tool is made from the texts of its contract. */
  lemma BasedIsIndexed(db: Db, g: GenerationId, o: Tools)
    requires Building(db, g) && AllBased(db.generations[g].content, db.generations[g].content.sources.Keys, o)
    ensures AllIndexed(db.generations[g].content, o)
  {
    StaysSound(db, g);
    var c := db.generations[g].content;
    forall t | t in c.sources ensures IndexedAs(c, t, o.project(c.sources[t]), o.provider) {
      assert Based(c, t, o);
    }
  }

  /** What another tool has is not touched. */
  lemma OthersStayBased(c: Content, d: Content, t: Tool, contract: string, u: Tool, o: Tools)
    requires Populates(c, d, t, contract) && Based(c, u, o) && u != t
    ensures Based(d, u, o)
  {
    assert u in c.lexical - {t} && (d.lexical - {t})[u] == c.lexical[u];
    assert u in c.members - {t} && (d.members - {t})[u] == c.members[u];
    forall key | key in BaseKeys(u) ensures Complete(d, key) {
      assert key !in BaseKeys(t);
      RowKept(c, d, BaseKeys(t), key);
    }
  }

  lemma PopulatesKeeps(a: Db, b: Db, g: GenerationId, t: Tool, contract: string, tools: set<Tool>, done: set<Tool>, o: Tools)
    requires OnlyContent(a, b, g) && Populates(a.generations[g].content, b.generations[g].content, t, contract)
    ensures MayPopulate(a, g, tools) ==> MayPopulate(b, g, tools)
    ensures AllBased(a.generations[g].content, done, o) && Based(b.generations[g].content, t, o) ==> AllBased(b.generations[g].content, done, o)
  {
    hide Based;
    SameWork(a, b, g);
    var c, d := a.generations[g].content, b.generations[g].content;
    assert Guided(d) ==> Guided(c);
    forall u | AllBased(c, done, o) && u in done && u != t ensures Based(d, u, o) {
      OthersStayBased(c, d, t, contract, u, o);
    }
  }

  lemma PopulatedKeys(c: Content, d: Content, t: Tool, contract: string)
    requires Populates(c, d, t, contract) && KeysOfSources(c)
    ensures KeysOfSources(d)
  {
    forall key, u | key in d.requirements && KeyOf(key, u) ensures u in d.sources {
      if key in c.requirements {
        assert u in c.sources;
      } else {
        assert key in BaseKeys(t);
      }
    }
  }

  lemma PopulatedRow(c: Content, d: Content, t: Tool, contract: string, key: Key)
    requires Populates(c, d, t, contract) && key !in BaseKeys(t)
    ensures (key in c.requirements <==> key in d.requirements) && (key in c.requirements ==> d.requirements[key] == c.requirements[key])
  {
  }

  lemma PopulatedGates(c: Content, d: Content, t: Tool, contract: string)
    requires Populates(c, d, t, contract) && GatesMatch(c)
    ensures GatesMatch(d)
  {
    hide Populates;
    forall u | Complete(d, EnrichedGate(u)) ensures d.requirements[EnrichedGate(u)].actual == Some(d.requirements[EnrichedGate(u)].expected) {
      PopulatedRow(c, d, t, contract, EnrichedGate(u));
      assert Complete(c, EnrichedGate(u));
    }
  }

  lemma PopulatedEnriched(c: Content, d: Content, t: Tool, contract: string, u: Tool)
    requires Populates(c, d, t, contract) && FullyEnriched(c, u)
    ensures FullyEnriched(d, u)
  {
    hide Populates;
    forall key | key in EnrichmentKeys(u) ensures Complete(d, key) {
      PopulatedRow(c, d, t, contract, key);
    }
  }

  lemma PopulatedSources(c: Content, d: Content, t: Tool, contract: string)
    requires Populates(c, d, t, contract) && t in c.sources
    ensures d.sources.Keys == c.sources.Keys
  {
  }

  /** The rows of one generation, when a tool is populated that is a source already, or before any work is handed out. */
  lemma PopulatesRight(c: Content, d: Content, t: Tool, contract: string, work: set<(Tool, string)>, provider: string)
    requires Populates(c, d, t, contract) && RowsRight(c, work, provider) && (t in c.sources || work == {})
    ensures RowsRight(d, work, provider)
  {
    hide Populates, KeysOfSources, GatesMatch, FullyEnriched;
    PopulatedKeys(c, d, t, contract);
    PopulatedGates(c, d, t, contract);
    forall w | w in work ensures DeclaredFor(d, w, provider) {
      PopulatedRow(c, d, t, contract, ArtifactKey(ToolSlot(Guidance, w.0)));
      PopulatedRow(c, d, t, contract, EnrichedGate(w.0));
    }
    if work != {} {
      PopulatedSources(c, d, t, contract);
      forall u | u in d.sources ensures Asked(work, u) || FullyEnriched(d, u) {
        if !Asked(work, u) {
          PopulatedEnriched(c, d, t, contract, u);
        }
      }
    }
  }

  lemma WorkHasTools(db: Db, g: GenerationId)
    requires BatchTools(db, g) == {}
    ensures WorkOf(db.batches, g) == {}
  {
    assert forall w :: w in WorkOf(db.batches, g) ==> w.0 in BatchTools(db, g);
  }

  lemma PopulatesKeepsRows(a: Db, b: Db, g: GenerationId, t: Tool, contract: string)
    requires OnlyContent(a, b, g) && Populates(a.generations[g].content, b.generations[g].content, t, contract) && MayAddSource(a, g, t)
    ensures KeepsRows(a, b)
  {
    hide RowsRight, Populates, WorkOf, BatchTools;
    if BatchTools(a, g) == {} {
      WorkHasTools(a, g);
    }
    forall provider | RowsAgree(a, provider) ensures RowsAgree(b, provider) {
      PopulatesRight(a.generations[g].content, b.generations[g].content, t, contract, WorkOf(a.batches, g), provider);
      forall h | h in b.generations ensures RowsRight(b.generations[h].content, WorkOf(b.batches, h), provider) {
        assert h != g ==> b.generations[h] == a.generations[h];
      }
    }
  }

  method PopulateServer(cat: Catalog, g: GenerationId, entry: ServerEntry, tools: Snapshot, o: Tools,
                        ghost before: Sources, ghost all: set<Tool>) returns (e: Option<Error>)
    requires Building(cat.Tables(), g) && MayPopulate(cat.Tables(), g, all)
    requires forall k :: 0 <= k < |tools| && entry.ToolExposed(tools[k].0) ==> Tool(entry.id, tools[k].0) in all
    requires AllBased(cat.generations[g].content, before.Keys, o) && Chooses(o.choose)
    modifies cat
    ensures Building(cat.Tables(), g) && OnlyContent(old(cat.Tables()), cat.Tables(), g) && MayPopulate(cat.Tables(), g, all)
    ensures KeepsRows(old(cat.Tables()), cat.Tables())
    ensures e.None? ==>
              && cat.generations[g].content.sources == Listed(old(cat.generations[g].content.sources), entry, tools)
              && AllBased(cat.generations[g].content, Listed(before, entry, tools).Keys, o)
  {
    hide IndexSound, Exec, Populates, Based, RowsAgree;
    e := None;
    ghost var c0 := cat.generations[g].content;
    assert OnlyContent(cat.Tables(), cat.Tables(), g);
    for j := 0 to |tools|
      invariant Building(cat.Tables(), g) && OnlyContent(old(cat.Tables()), cat.Tables(), g) && MayPopulate(cat.Tables(), g, all)
      invariant KeepsRows(old(cat.Tables()), cat.Tables())
      invariant cat.generations[g].content.sources == Listed(c0.sources, entry, tools[..j])
      invariant AllBased(cat.generations[g].content, Listed(before, entry, tools[..j]).Keys, o)
    {
      assert tools[..j + 1][..j] == tools[..j];
      if !entry.ToolExposed(tools[j].0) {
        continue;
      }
      var t, contract := Tool(entry.id, tools[j].0), tools[j].1;
      ghost var a := cat.Tables();
      ghost var n;
      e, n := PopulateTool(cat, g, t, contract, o);
      PopulatesKeeps(a, cat.Tables(), g, t, contract, all, Listed(before, entry, tools[..j]).Keys, o);
      OnlyContentTransitive(old(cat.Tables()), a, cat.Tables(), g);
      PopulatesKeepsRows(a, cat.Tables(), g, t, contract);
      KeepsRowsTransitive(old(cat.Tables()), a, cat.Tables());
      if e.Some? { return; }
    }
    assert tools[..|tools|] == tools;
  }
}
