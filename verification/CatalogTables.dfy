/**
 The catalog object: the tables as mutable fields, one method per transaction, each proved to do what
 `CatalogModel.Exec` says. The database connection may be lost at any write: `cut` is the number of
 writes that still get through, and a caller that is cut off sees an error from then on.
 */
module CatalogTables {
  import opened Common
  import opened CatalogModel

  /** The tables, and how many more writes the connection carries. */
  datatype Session = Session(db: Db, cut: nat)

  /** One transaction over the connection. */
  function Do(s: Session, tx: Tx): (Session, Option<Error>) {
    if s.cut == 0 then (s, Some(ConnectionLost))
    else
      match Exec(s.db, tx)
      case Ok(db) => (Session(db, s.cut - 1), None)
      case Err(e) => (s.(cut := s.cut - 1), Some(e))
  }

  /** The tests of FulfillArtifact: the requirement is declared with this identity, and the artifact has it. */
  function FulfillError(db: Db, g: GenerationId, slot: Slot, spec: Spec, a: Artifact): Option<Error> {
    if g !in db.generations || ArtifactKey(slot) !in db.generations[g].content.requirements then Some(NotDeclared)
    else if db.generations[g].content.requirements[ArtifactKey(slot)].expected != OfSpec(spec) then Some(DependencyMismatch)
    else if a !in db.artifacts then Some(NotDeclared)
    else if a.spec != spec then Some(DependencyMismatch)
    else None
  }

  function Reusable(artifacts: set<Artifact>, spec: Spec, choose: set<Artifact> -> Artifact): Option<Artifact> {
    var candidates := set a | a in artifacts && a.spec == spec;
    if candidates == {} then None else Some(choose(candidates))
  }

  /** The choice among reusable artifacts picks one of them. */
  ghost predicate Chooses(choose: set<Artifact> -> Artifact) {
    forall s: set<Artifact> :: s != {} ==> choose(s) in s
  }

  /** The write took place, or it was refused or lost and nothing changed. */
  predicate Wrote(before: Db, tx: Tx, e: Option<Error>, after: Db) {
    if e.None? then Exec(before, tx) == Ok(after) else after == before
  }

  class Catalog {
    var generations: map<GenerationId, Generation>
    var artifacts: set<Artifact>
    var batches: map<BatchId, Batch>
    var dirty: map<string, Marker>
    var cut: nat

    constructor ()
      ensures Tables() == EmptyDb
    {
      generations, artifacts, batches, dirty, cut := map[], {}, map[], map[], 0;
    }

    function Tables(): Db
      reads this
    {
      Db(generations, artifacts, batches, dirty)
    }

    function State(): Session
      reads this
    {
      Session(Tables(), cut)
    }

    /** Spends one write of the connection. */
    method Spend() returns (lost: bool)
      modifies this`cut
      ensures lost == (old(cut) == 0)
      ensures cut == if lost then 0 else old(cut) - 1
    {
      lost := cut == 0;
      if !lost {
        cut := cut - 1;
      }
    }

    method PutGeneration(g: GenerationId, hash: string) returns (e: Option<Error>)
      modifies this
      ensures (State(), e) == Do(old(State()), CreateStaging(g, hash))
    {
      var lost := Spend();
      if lost { return Some(ConnectionLost); }
      if hash == "" || g == "" { return Some(MissingArgument); }
      if g in generations { return Some(GenerationExists); }
      generations := generations[g := Generation(Staging, hash, None, EmptyContent)];
      e := None;
    }

    method Reconcile(hash: string) returns (e: Option<Error>)
      modifies this
      ensures (State(), e) == Do(old(State()), ReconcileStaging(hash))
    {
      var lost := Spend();
      if lost { return Some(ConnectionLost); }
      if hash == "" { return Some(MissingArgument); }
      generations := SupersedeStale(generations, hash);
      e := None;
    }

    method Supersede(g: GenerationId) returns (e: Option<Error>)
      modifies this
      ensures (State(), e) == Do(old(State()), SupersedeStaging(g))
    {
      var lost := Spend();
      if lost { return Some(ConnectionLost); }
      e := StagingError(Tables(), g);
      if e.None? {
        generations := generations[g := generations[g].(status := Superseded)];
      }
    }

    method RequireSourceTool(g: GenerationId, t: Tool, expected: string) returns (e: Option<Error>)
      modifies this
      ensures (State(), e) == Do(old(State()), RequireSource(g, t, expected))
    {
      var lost := Spend();
      if lost { return Some(ConnectionLost); }
      e := StagingError(Tables(), g);
      if e.Some? { return; }
      var c := generations[g].content;
      var row := Member(expected, None, false);
      if t in c.members {
        row := c.members[t].(expected := expected);
        if row.actual != Some(expected) {
          row := row.(complete := false);
        }
      }
      generations := generations[g := generations[g].(content := c.(members := c.members[t := row]))];
    }

    method PutSourceTool(g: GenerationId, t: Tool, contract: string, complete: bool) returns (e: Option<Error>)
      modifies this
      ensures (State(), e) == Do(old(State()), PutSource(g, t, contract, complete))
    {
      var lost := Spend();
      if lost { return Some(ConnectionLost); }
      e := StagingError(Tables(), g);
      if e.Some? { return; }
      var c := generations[g].content;
      if t !in c.members { return Some(NotDeclared); }
      c := c.(sources := c.sources[t := contract]);
      c := c.(members := c.members[t := c.members[t].(actual := Some(contract), complete := complete)]);
      generations := generations[g := generations[g].(content := c)];
    }

    method Require(g: GenerationId, key: Key, expected: Fingerprint) returns (e: Option<Error>)
      modifies this
      ensures (State(), e) == Do(old(State()), RequireDependency(g, key, expected))
    {
      var lost := Spend();
      if lost { return Some(ConnectionLost); }
      e := StagingError(Tables(), g);
      if e.Some? { return; }
      var c := generations[g].content;
      var row := Requirement(expected, None, false);
      if key in c.requirements {
        row := c.requirements[key].(expected := expected);
        if row.actual != Some(expected) {
          row := row.(complete := false);
        }
      }
      generations := generations[g := generations[g].(content := c.(requirements := c.requirements[key := row]))];
    }

    method Satisfy(g: GenerationId, key: Key, actual: Fingerprint) returns (e: Option<Error>)
      modifies this
      ensures (State(), e) == Do(old(State()), SatisfyDependency(g, key, actual))
    {
      var lost := Spend();
      if lost { return Some(ConnectionLost); }
      e := StagingError(Tables(), g);
      if e.Some? { return; }
      var c := generations[g].content;
      if key !in c.requirements { return Some(NotDeclared); }
      c := c.(requirements := c.requirements[key := c.requirements[key].(actual := Some(actual), complete := true)]);
      generations := generations[g := generations[g].(content := c)];
    }

    method Attach(g: GenerationId, slot: Slot, a: Artifact) returns (e: Option<Error>)
      modifies this
      ensures (State(), e) == Do(old(State()), AttachArtifact(g, slot, a))
    {
      var lost := Spend();
      if lost { return Some(ConnectionLost); }
      e := StagingError(Tables(), g);
      if e.Some? { return; }
      var c := generations[g].content;
      generations := generations[g := generations[g].(content := c.(attached := c.attached[slot := a]))];
    }

    method PutLexicalRecord(g: GenerationId, t: Tool, text: string) returns (e: Option<Error>)
      modifies this
      ensures (State(), e) == Do(old(State()), PutLexical(g, t, text))
    {
      var lost := Spend();
      if lost { return Some(ConnectionLost); }
      e := StagingError(Tables(), g);
      if e.Some? { return; }
      var c := generations[g].content;
      generations := generations[g := generations[g].(content := c.(lexical := c.lexical[t := text]))];
    }

    method StoreArtifact(a: Artifact) returns (e: Option<Error>)
      modifies this
      ensures (State(), e) == Do(old(State()), PutArtifact(a))
    {
      var lost := Spend();
      if lost { return Some(ConnectionLost); }
      artifacts := artifacts + {a};
      e := None;
    }

    method PutEnrichmentBatches(specs: map<BatchId, Batch>) returns (e: Option<Error>)
      modifies this
      ensures (State(), e) == Do(old(State()), PutBatches(specs))
    {
      var lost := Spend();
      if lost { return Some(ConnectionLost); }
      e := PutBatchesError(Tables(), specs);
      if e.Some? { return; }
      batches := specs + batches;
    }

    method AcceptEnrichmentBatch(b: BatchId, response: Response) returns (e: Option<Error>)
      modifies this
      ensures (State(), e) == Do(old(State()), AcceptBatch(b, response))
    {
      var lost := Spend();
      if lost { return Some(ConnectionLost); }
      e := AcceptError(Tables(), b, response);
      if e.Some? { return; }
      batches := batches[b := batches[b].(accepted := Some(response))];
    }

    method Mark(p: string, m: Marker) returns (e: Option<Error>)
      modifies this
      ensures (State(), e) == Do(old(State()), MarkDirty(p, m))
    {
      var lost := Spend();
      if lost { return Some(ConnectionLost); }
      if p == "" || m.reason == "" { return Some(MissingArgument); }
      dirty := dirty[p := m];
      e := None;
    }

    method ClearIfUnchanged(p: string, m: Marker) returns (e: Option<Error>)
      modifies this
      ensures (State(), e) == Do(old(State()), ClearDirtyIfUnchanged(p, m))
    {
      var lost := Spend();
      if lost { return Some(ConnectionLost); }
      if p == "" { return Some(MissingArgument); }
      if p in dirty && dirty[p] == m {
        dirty := dirty - {p};
      }
      e := None;
    }

    /** The tests and the two updates of promotion, in the order of the statements. */
    method PromoteGeneration(g: GenerationId, hash: string) returns (e: Option<Error>)
      modifies this
      ensures (State(), e) == Do(old(State()), Promote(g, hash))
    {
      var lost := Spend();
      if lost { return Some(ConnectionLost); }
      e := PromoteError(Tables(), g, hash);
      if e.Some? { return; }
      var before := generations;
      generations := map x | x in before ::
        if before[x].status == Active then before[x].(status := Superseded) else before[x];
      generations := generations[g := generations[g].(status := Active, sourceSet := Some(generations[g].content.sources))];
      assert generations == Promoted(before, g);
    }

    /** The stored artifact with this identity that comes first in the order of keys, which `choose` stands for. */
    method FindReusableArtifact(spec: Spec, choose: set<Artifact> -> Artifact) returns (found: Option<Artifact>)
      ensures found.Some? <==> exists a :: a in artifacts && a.spec == spec
      ensures found.Some? && Chooses(choose) ==> found.value in artifacts && found.value.spec == spec
      ensures found == Reusable(artifacts, spec, choose)
    {
      var candidates := set a | a in artifacts && a.spec == spec;
      if candidates == {} {
        assert forall a :: a in artifacts && a.spec == spec ==> a in candidates;
        return None;
      }
      found := Some(choose(candidates));
    }
  }
}
