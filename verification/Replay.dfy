/**
 Submissions that are cut off and made again. The writes of a submission agree with each other and with
 those of other batches of the generation, and one that starts again computes the same writes; so repair
 reaches the state of an uninterrupted run.
 */
module Replay {
  import opened Common
  import opened CatalogModel
  import opened CatalogTables
  import opened Confluence
  import opened IndexInvariant
  import opened IndexBuild
  import opened IndexEnrichment
  import opened Submission

  // ---------------------------------------------------------------------------------------------
  // Submissions are coherent
  // ---------------------------------------------------------------------------------------------

  /** A write that concerns one tool of one generation, or stores an artifact. */
  predicate About(tx: Tx, g: GenerationId, t: Tool) {
    match tx
    case PutArtifact(_) => true
    case AttachArtifact(h, slot, _) => h == g && slot.ToolSlot? && slot.tool == t
    case RequireDependency(h, key, _) => h == g && KeyOf(key, t)
    case SatisfyDependency(h, key, _) => h == g && KeyOf(key, t)
    case _ => false
  }

  lemma OtherToolsAgree(x: Tx, y: Tx, g: GenerationId, t: Tool, u: Tool)
    requires About(x, g, t) && About(y, g, u) && t != u
    ensures Agree(x, y)
  {
  }

  lemma OneToolAgrees(g: GenerationId, t: Tool, contract: string, guidance: string, vector: Artifact, o: Tools)
    ensures Coherent(ToolTxs(g, t, contract, guidance, vector, o))
    ensures forall x :: x in ToolTxs(g, t, contract, guidance, vector, o) ==> About(x, g, t)
  {
    var a, s := GuidanceOf(contract, guidance), EnrichedSpec(t, guidance, o);
    var all := {PutArtifact(a), AttachArtifact(g, ToolSlot(Guidance, t), a),
                SatisfyDependency(g, ArtifactKey(ToolSlot(Guidance, t)), OfSpec(GuidanceSpec(contract))),
                RequireDependency(g, ArtifactKey(ToolSlot(Enriched, t)), OfSpec(s)), PutArtifact(vector),
                AttachArtifact(g, ToolSlot(Enriched, t), vector),
                SatisfyDependency(g, ArtifactKey(ToolSlot(Enriched, t)), OfSpec(s)),
                SatisfyDependency(g, EnrichedGate(t), OfGate(o.provider, contract))};
    assert forall x :: x in ToolTxs(g, t, contract, guidance, vector, o) ==> x in all;
    assert forall x, y :: x in all && y in all ==> Agree(x, y);
  }

  lemma ItemAgrees(g: GenerationId, item: Work, guidance: map<Tool, string>, artifacts: set<Artifact>, o: Tools)
    ensures Coherent(ItemTxs(g, item, guidance, artifacts, o))
    ensures forall x :: x in ItemTxs(g, item, guidance, artifacts, o) ==> About(x, g, item.0)
  {
    hide Agree, About, ToolTxs;
    var (t, contract) := item;
    var text := if t in guidance then guidance[t] else "";
    OneToolAgrees(g, t, contract, text, EnrichedOr(artifacts, t, text, o), o);
  }

  /** Every write of a list of items belongs to one of them. */
  lemma {:induction false} WriteOfItem(g: GenerationId, items: seq<Work>, guidance: map<Tool, string>, artifacts: set<Artifact>, o: Tools, x: Tx)
    returns (i: nat)
    requires x in ItemsTxs(g, items, guidance, artifacts, o)
    ensures i < |items| && x in ItemTxs(g, items[i], guidance, artifacts, o)
  {
    hide ItemTxs;
    i := |items| - 1;
    if x !in ItemTxs(g, items[i], guidance, artifacts, o) {
      i := WriteOfItem(g, items[..i], guidance, artifacts, o, x);
    }
  }

  ghost predicate DistinctWork(items: seq<Work>) {
    forall i, j :: 0 <= i < j < |items| ==> items[i].0 != items[j].0
  }

  lemma SubmissionIsCoherent(artifacts: set<Artifact>, b: BatchId, items: seq<Work>, answers: seq<ToolAnswer>, o: Tools)
    requires DistinctWork(items)
    ensures Coherent(SubmitTxs(artifacts, b, items, answers, o))
  {
    hide ItemTxs, Agree, About;
    var txs, g, guidance := SubmitTxs(artifacts, b, items, answers, o), b.generation, Guidances(answers);
    forall x, y | x in txs && y in txs ensures Agree(x, y) {
      if x != txs[0] && y != txs[0] {
        var i := WriteOfItem(g, items, guidance, artifacts, o, x);
        var j := WriteOfItem(g, items, guidance, artifacts, o, y);
        ItemAgrees(g, items[i], guidance, artifacts, o);
        ItemAgrees(g, items[j], guidance, artifacts, o);
        if i != j {
          OtherToolsAgree(x, y, g, items[i].0, items[j].0);
        }
      } else {
        forall z | z in txs && z != txs[0] ensures Agree(z, txs[0]) && Agree(txs[0], z) {
          var i := WriteOfItem(g, items, guidance, artifacts, o, z);
          ItemAgrees(g, items[i], guidance, artifacts, o);
          AcceptAgrees(z, b, ToolResponse(answers), g, items[i].0);
        }
        AcceptAgreesWithItself(b, ToolResponse(answers));
      }
    }
  }

  lemma AcceptAgrees(x: Tx, b: BatchId, r: Response, g: GenerationId, t: Tool)
    requires About(x, g, t)
    ensures Agree(x, AcceptBatch(b, r)) && Agree(AcceptBatch(b, r), x)
  {
  }

  lemma AcceptAgreesWithItself(b: BatchId, r: Response)
    ensures Agree(AcceptBatch(b, r), AcceptBatch(b, r))
  {
  }

  // ---------------------------------------------------------------------------------------------
  // A submission that starts again computes the same writes
  // ---------------------------------------------------------------------------------------------

  /** A run stores only the artifacts that its writes name. */
  lemma {:induction false} RanStores(a: Db, txs: seq<Tx>, b: Db, x: Artifact)
    requires Ran(a, txs, b) && x in b.artifacts
    ensures x in a.artifacts || PutArtifact(x) in txs
    decreases |txs|
  {
    if txs != [] {
      RanStores(Exec(a, txs[0]).value, txs[1..], b, x);
    }
  }

  lemma {:induction false} RanKeepsArtifacts(a: Db, txs: seq<Tx>, b: Db)
    requires Ran(a, txs, b)
    ensures a.artifacts <= b.artifacts
    decreases |txs|
  {
    if txs != [] {
      TxExtends(a, txs[0]);
      RanKeepsArtifacts(Exec(a, txs[0]).value, txs[1..], b);
    }
  }

  /** Storing the vector that would be chosen anyway does not change the choice. */
  lemma VectorRecomputed(before: set<Artifact>, after: set<Artifact>, t: Tool, guidance: string, o: Tools)
    requires Chooses(o.choose) && before <= after
    requires forall a :: a in after - before && a.spec == EnrichedSpec(t, guidance, o) ==> EnrichedVector(before, t, guidance, o) == Some(a)
    ensures EnrichedVector(after, t, guidance, o) == EnrichedVector(before, t, guidance, o)
  {
    var spec := EnrichedSpec(t, guidance, o);
    var old', new' := (set a | a in before && a.spec == spec), (set a | a in after && a.spec == spec);
    assert old' <= new';
    if old' != {} {
      var chosen := o.choose(old');
      assert EnrichedVector(before, t, guidance, o) == Some(chosen);
      assert new' == old';
    } else if new' != {} {
      var a :| a in new';
      forall x | x in new' ensures Some(x) == EnrichedVector(before, t, guidance, o) {
        assert x !in old';
        assert x in after - before && x.spec == spec;
      }
      assert new' == {a};
    }
  }

  /** An artifact that a submission stores under the identity of an item's vector is that vector. */
  lemma StoredVector(artifacts: set<Artifact>, b: BatchId, items: seq<Work>, answers: seq<ToolAnswer>, o: Tools, i: nat, a: Artifact)
    requires Faithful(o) && DistinctWork(items) && i < |items| && VectorsExist(artifacts, items, Guidances(answers), o)
    requires PutArtifact(a) in SubmitTxs(artifacts, b, items, answers, o)
    requires var text := if items[i].0 in Guidances(answers) then Guidances(answers)[items[i].0] else "";
             a.spec == EnrichedSpec(items[i].0, text, o)
    ensures var text := if items[i].0 in Guidances(answers) then Guidances(answers)[items[i].0] else "";
            EnrichedVector(artifacts, items[i].0, text, o) == Some(a)
  {
    var guidance := Guidances(answers);
    var j := WriteOfItem(b.generation, items, guidance, artifacts, o, PutArtifact(a));
    var (t, contract) := items[j];
    var text := if t in guidance then guidance[t] else "";
    var vector := EnrichedVector(artifacts, t, text, o).value;
    assert a == GuidanceOf(contract, text) || a == vector by {
      StoredByItem(b.generation, t, contract, text, vector, o, a);
    }
    assert a == vector && vector.spec == EnrichedSpec(t, text, o);
    assert t == items[i].0;
  }

  lemma StoredByItem(g: GenerationId, t: Tool, contract: string, text: string, vector: Artifact, o: Tools, a: Artifact)
    requires PutArtifact(a) in ToolTxs(g, t, contract, text, vector, o)
    ensures a == GuidanceOf(contract, text) || a == vector
  {
  }

  lemma {:induction false} SameItems(g: GenerationId, items: seq<Work>, guidance: map<Tool, string>, before: set<Artifact>, after: set<Artifact>, o: Tools)
    requires forall i :: 0 <= i < |items| ==>
               var text := if items[i].0 in guidance then guidance[items[i].0] else "";
               EnrichedVector(after, items[i].0, text, o) == EnrichedVector(before, items[i].0, text, o)
    ensures ItemsTxs(g, items, guidance, after, o) == ItemsTxs(g, items, guidance, before, o)
  {
    hide EnrichedVector, ToolTxs;
    if items != [] {
      SameItems(g, items[..|items| - 1], guidance, before, after, o);
    }
  }

  // ---------------------------------------------------------------------------------------------
  // Histories of several batches
  // ---------------------------------------------------------------------------------------------

  /** The responses that batches of one generation were given. */
  type Plan = map<BatchId, Response>

  /** One submission of a batch, of which a number of writes got through. */
  datatype Attempt = Attempt(batch: BatchId, writes: nat)

  /** Submissions of planned responses, one after the other, each cut off anywhere. */
  ghost predicate Attempted(plan: Plan, ws: seq<Db>, tries: seq<Attempt>, o: Tools) {
    && |ws| == |tries| + 1
    && forall i :: 0 <= i < |tries| ==>
         tries[i].batch in plan && Cut(ws[i], tries[i].batch, plan[tries[i].batch], tries[i].writes, ws[i + 1], o)
  }

  /** The attempt got all its writes through. */
  ghost predicate Whole(db: Db, try: Attempt) {
    && try.batch in db.batches && db.batches[try.batch].request.ToolRequest?
    && try.writes == 1 + 8 * |db.batches[try.batch].request.items|
  }

  ghost predicate HasWhole(ws: seq<Db>, tries: seq<Attempt>, b: BatchId) {
    |ws| == |tries| + 1 && exists i :: 0 <= i < |tries| && tries[i].batch == b && Whole(ws[i], tries[i])
  }

  /** Submissions of the plan lead from one state to the other, in any order and each cut off anywhere. */
  ghost predicate Interrupted(a: Db, plan: Plan, c: Db, o: Tools) {
    exists ws, tries :: Attempted(plan, ws, tries, o) && ws[0] == a && ws[|tries|] == c
  }

  /** The same, and every response of the plan was submitted without interruption at least once. */
  ghost predicate Completed(a: Db, plan: Plan, c: Db, o: Tools) {
    exists ws, tries :: Attempted(plan, ws, tries, o) && ws[0] == a && ws[|tries|] == c
                        && forall b :: b in plan ==> HasWhole(ws, tries, b)
  }

  /** The batches of a plan are about different tools of one generation, and their vectors are to be had. */
  ghost predicate Planned(a: Db, g: GenerationId, plan: Plan, o: Tools) {
    && (forall b :: b in plan ==>
          && Answers(a, b, plan[b]) && b.generation == g && DistinctWork(a.batches[b].request.items)
          && VectorsExist(a.artifacts, a.batches[b].request.items, Guidances(plan[b].answers), o))
    && forall b, c :: b in plan && c in plan && b != c ==>
         RequestTools(a.batches[b].request) !! RequestTools(a.batches[c].request)
  }

  /** A write of the plan, as it is computed in the state from which the histories start. */
  ghost predicate InPlan(a: Db, plan: Plan, x: Tx, o: Tools) {
    exists b :: b in plan && Answers(a, b, plan[b]) && x in TxsFor(a, b, plan[b], o)
  }

  /** A write of a submission is its acceptance, or belongs to one of its items. */
  lemma WriteOfSubmission(artifacts: set<Artifact>, b: BatchId, items: seq<Work>, answers: seq<ToolAnswer>, o: Tools, x: Tx)
    requires x in SubmitTxs(artifacts, b, items, answers, o)
    ensures x == AcceptBatch(b, ToolResponse(answers)) || exists t :: t in WorkTools(items) && About(x, b.generation, t)
  {
    hide ItemTxs, About, Guidances;
    if x != AcceptBatch(b, ToolResponse(answers)) {
      var i := WriteOfItem(b.generation, items, Guidances(answers), artifacts, o, x);
      ItemAgrees(b.generation, items[i], Guidances(answers), artifacts, o);
      assert items[i].0 in WorkTools(items);
    }
  }

  lemma AcceptsAgree(b: BatchId, r: Response, c: BatchId, s: Response)
    requires b != c
    ensures Agree(AcceptBatch(b, r), AcceptBatch(c, s))
  {
  }

  lemma PlanIsCoherent(a: Db, g: GenerationId, plan: Plan, o: Tools, x: Tx, y: Tx)
    requires Planned(a, g, plan, o) && InPlan(a, plan, x, o) && InPlan(a, plan, y, o)
    ensures Agree(x, y)
  {
    hide SubmitTxs, About, Agree, VectorsExist, WorkTools, DistinctWork;
    var b :| b in plan && Answers(a, b, plan[b]) && x in TxsFor(a, b, plan[b], o);
    var c :| c in plan && Answers(a, c, plan[c]) && y in TxsFor(a, c, plan[c], o);
    var bs, cs := a.batches[b].request.items, a.batches[c].request.items;
    if b == c {
      SubmissionIsCoherent(a.artifacts, b, bs, plan[b].answers, o);
    } else {
      WriteOfSubmission(a.artifacts, b, bs, plan[b].answers, o, x);
      WriteOfSubmission(a.artifacts, c, cs, plan[c].answers, o, y);
      if x == AcceptBatch(b, plan[b]) && y == AcceptBatch(c, plan[c]) {
        AcceptsAgree(b, plan[b], c, plan[c]);
      } else if x == AcceptBatch(b, plan[b]) {
        var t :| t in WorkTools(cs) && About(y, g, t);
        AcceptAgrees(y, b, plan[b], g, t);
      } else {
        var t :| t in WorkTools(bs) && About(x, g, t);
        if y == AcceptBatch(c, plan[c]) {
          AcceptAgrees(x, c, plan[c], g, t);
        } else {
          var u :| u in WorkTools(cs) && About(y, g, u);
          assert t != u;
          OtherToolsAgree(x, y, g, t, u);
        }
      }
    }
  }

  /** An artifact stored for one tool has the identity of another tool's vector only if they are the same. */
  lemma StoredForTool(artifacts: set<Artifact>, b: BatchId, items: seq<Work>, answers: seq<ToolAnswer>, o: Tools, x: Artifact, t: Tool, text: string)
    requires Faithful(o) && PutArtifact(x) in SubmitTxs(artifacts, b, items, answers, o) && x.spec == EnrichedSpec(t, text, o)
    requires VectorsExist(artifacts, items, Guidances(answers), o)
    ensures t in WorkTools(items)
  {
    var guidance := Guidances(answers);
    var j := WriteOfItem(b.generation, items, guidance, artifacts, o, PutArtifact(x));
    var (u, contract) := items[j];
    var said := if u in guidance then guidance[u] else "";
    var vector := EnrichedVector(artifacts, u, said, o).value;
    StoredByItem(b.generation, u, contract, said, vector, o, x);
    assert x == vector && vector.spec == EnrichedSpec(u, said, o);
    assert items[j].0 == t;
  }

  /** What a history that began in one state has reached: no batch is new, and new artifacts are those of the plan. */
  ghost predicate Reached(a: Db, plan: Plan, d: Db, o: Tools) {
    && SameWorkItems(a, d) && a.artifacts <= d.artifacts
    && forall x :: x in d.artifacts - a.artifacts ==> InPlan(a, plan, PutArtifact(x), o)
  }

  ghost predicate SameWorkItems(a: Db, d: Db) {
    d.batches.Keys == a.batches.Keys && forall b :: b in a.batches ==> d.batches[b].(accepted := None) == a.batches[b].(accepted := None)
  }

  /** Whatever a history has reached, a submission of the plan computes the writes it computed at the beginning. */
  lemma SameWritesLater(a: Db, g: GenerationId, plan: Plan, d: Db, b: BatchId, o: Tools)
    requires Faithful(o) && Planned(a, g, plan, o) && Reached(a, plan, d, o) && b in plan
    ensures Answers(d, b, plan[b]) && TxsFor(d, b, plan[b], o) == TxsFor(a, b, plan[b], o)
  {
    hide EnrichedVector, ItemsTxs, Guidances, WorkTools;
    var items, guidance := a.batches[b].request.items, Guidances(plan[b].answers);
    forall i | 0 <= i < |items|
      ensures var text := if items[i].0 in guidance then guidance[items[i].0] else "";
              EnrichedVector(d.artifacts, items[i].0, text, o) == EnrichedVector(a.artifacts, items[i].0, text, o)
    {
      var text := if items[i].0 in guidance then guidance[items[i].0] else "";
      forall x | x in d.artifacts - a.artifacts && x.spec == EnrichedSpec(items[i].0, text, o)
        ensures EnrichedVector(a.artifacts, items[i].0, text, o) == Some(x)
      {
        PlannedVector(a, g, plan, b, i, x, o);
      }
      VectorRecomputed(a.artifacts, d.artifacts, items[i].0, text, o);
    }
    SameItems(g, items, guidance, a.artifacts, d.artifacts, o);
  }

  lemma PlannedVector(a: Db, g: GenerationId, plan: Plan, b: BatchId, i: nat, x: Artifact, o: Tools)
    requires Faithful(o) && Planned(a, g, plan, o) && InPlan(a, plan, PutArtifact(x), o) && b in plan
    requires i < |a.batches[b].request.items|
    requires var t, guidance := a.batches[b].request.items[i].0, Guidances(plan[b].answers);
             x.spec == EnrichedSpec(t, if t in guidance then guidance[t] else "", o)
    ensures var t, guidance := a.batches[b].request.items[i].0, Guidances(plan[b].answers);
            EnrichedVector(a.artifacts, t, if t in guidance then guidance[t] else "", o) == Some(x)
  {
    hide SubmitTxs, VectorsExist, EnrichedVector, Guidances;
    var items, guidance := a.batches[b].request.items, Guidances(plan[b].answers);
    var text := if items[i].0 in guidance then guidance[items[i].0] else "";
    var c :| c in plan && Answers(a, c, plan[c]) && PutArtifact(x) in TxsFor(a, c, plan[c], o);
    StoredForTool(a.artifacts, c, a.batches[c].request.items, plan[c].answers, o, x, items[i].0, text);
    assert items[i].0 in WorkTools(items);
    assert b == c;
    StoredVector(a.artifacts, b, items, plan[b].answers, o, i, x);
  }

  /** Submissions hand out no work and change no request. */
  lemma {:induction false} RanKeepsWork(a: Db, txs: seq<Tx>, b: Db)
    requires Ran(a, txs, b) && forall x :: x in txs ==> !x.PutBatches?
    ensures SameWorkItems(a, b)
    decreases |txs|
  {
    if txs != [] {
      OneKeepsWork(a, txs[0]);
      RanKeepsWork(Exec(a, txs[0]).value, txs[1..], b);
    }
  }

  lemma OneKeepsWork(a: Db, tx: Tx)
    requires Exec(a, tx).Ok? && !tx.PutBatches?
    ensures SameWorkItems(a, Exec(a, tx).value)
  {
  }

  lemma CutKeepsWork(a: Db, b: BatchId, response: Response, k: nat, c: Db, o: Tools)
    requires Cut(a, b, response, k, c, o)
    ensures SameWorkItems(a, c)
  {
    hide Ran, SubmitTxs, About;
    var txs, items := TxsFor(a, b, response, o), a.batches[b].request.items;
    forall x | x in txs[..k] ensures !x.PutBatches? {
      assert x in txs;
      WriteOfSubmission(a.artifacts, b, items, response.answers, o, x);
      if x != AcceptBatch(b, ToolResponse(response.answers)) {
        var t :| t in WorkTools(items) && About(x, b.generation, t);
        AboutIsNoBatch(x, b.generation, t);
      }
    }
    RanKeepsWork(a, txs[..k], c);
  }

  lemma AboutIsNoBatch(x: Tx, g: GenerationId, t: Tool)
    requires About(x, g, t)
    ensures !x.PutBatches? && !x.AcceptBatch?
  {
  }

  /** One more attempt makes planned writes only, and the history still has reached only what is planned. */
  lemma ReachedNext(a: Db, g: GenerationId, plan: Plan, d: Db, b: BatchId, k: nat, e: Db, o: Tools)
    requires Faithful(o) && Planned(a, g, plan, o) && Reached(a, plan, d, o) && b in plan && Cut(d, b, plan[b], k, e, o)
    ensures Reached(a, plan, e, o) && k <= |TxsFor(a, b, plan[b], o)| && Ran(d, TxsFor(a, b, plan[b], o)[..k], e)
  {
    hide Planned, Ran, SubmitTxs, InPlan;
    assert Answers(a, b, plan[b]) by { PlannedAnswers(a, g, plan, b, o); }
    SameWritesLater(a, g, plan, d, b, o);
    CutKeepsWork(d, b, plan[b], k, e, o);
    var txs := TxsFor(a, b, plan[b], o);
    RanKeepsArtifacts(d, txs[..k], e);
    forall x | x in e.artifacts - a.artifacts ensures InPlan(a, plan, PutArtifact(x), o) {
      if x !in d.artifacts {
        RanStores(d, txs[..k], e, x);
        PlannedWrite(a, plan, b, PutArtifact(x), o);
      }
    }
  }

  lemma PlannedAnswers(a: Db, g: GenerationId, plan: Plan, b: BatchId, o: Tools)
    requires Planned(a, g, plan, o) && b in plan
    ensures Answers(a, b, plan[b]) && |TxsFor(a, b, plan[b], o)| == 1 + 8 * |a.batches[b].request.items|
  {
  }

  lemma PlannedWrite(a: Db, plan: Plan, b: BatchId, x: Tx, o: Tools)
    requires b in plan && Answers(a, b, plan[b]) && x in TxsFor(a, b, plan[b], o)
    ensures InPlan(a, plan, x, o)
  {
  }

  /** All writes of a submission of the plan have been made. */
  ghost predicate AllMade(a: Db, plan: Plan, b: BatchId, txs: seq<Tx>, o: Tools) {
    b in plan && Answers(a, b, plan[b]) ==> forall x :: x in TxsFor(a, b, plan[b], o) ==> x in txs
  }

  /** A history is a run of planned writes, which has all writes of every submission that was whole. */
  lemma {:induction false} HistoryRuns(a: Db, g: GenerationId, plan: Plan, ws: seq<Db>, tries: seq<Attempt>, n: nat, o: Tools) returns (txs: seq<Tx>)
    requires Faithful(o) && Planned(a, g, plan, o) && Attempted(plan, ws, tries, o) && ws[0] == a && n <= |tries|
    ensures Reached(a, plan, ws[n], o) && Ran(a, txs, ws[n]) && forall x :: x in txs ==> InPlan(a, plan, x, o)
    ensures forall i :: 0 <= i < n && Whole(ws[i], tries[i]) ==> AllMade(a, plan, tries[i].batch, txs, o)
    decreases n
  {
    hide Planned, SubmitTxs, Exec, Cut, Answers;
    if n == 0 {
      txs := [];
    } else {
      var before := HistoryRuns(a, g, plan, ws, tries, n - 1, o);
      var try := tries[n - 1];
      PlannedAnswers(a, g, plan, try.batch, o);
      ReachedNext(a, g, plan, ws[n - 1], try.batch, try.writes, ws[n], o);
      var all := TxsFor(a, try.batch, plan[try.batch], o);
      var more := all[..try.writes];
      RanAppend(a, before, ws[n - 1], more, ws[n]);
      txs := before + more;
      forall x | x in more ensures InPlan(a, plan, x, o) {
        assert x in all;
        PlannedWrite(a, plan, try.batch, x, o);
      }
      if Whole(ws[n - 1], try) {
        assert more == all;
      }
    }
  }

  /** A history that is complete has made exactly the writes of the plan. */
  lemma CompleteHistoryRuns(a: Db, g: GenerationId, plan: Plan, c: Db, o: Tools) returns (txs: seq<Tx>)
    requires Faithful(o) && Planned(a, g, plan, o) && Completed(a, plan, c, o)
    ensures Ran(a, txs, c) && forall x :: x in txs <==> InPlan(a, plan, x, o)
  {
    hide Planned, SubmitTxs, Ran, Cut, Whole, Answers;
    var ws: seq<Db>, tries: seq<Attempt> :| Attempted(plan, ws, tries, o) && ws[0] == a && ws[|tries|] == c
                     && forall b :: b in plan ==> HasWhole(ws, tries, b);
    txs := HistoryRuns(a, g, plan, ws, tries, |tries|, o);
    forall x | InPlan(a, plan, x, o) ensures x in txs {
      var b :| b in plan && Answers(a, b, plan[b]) && x in TxsFor(a, b, plan[b], o);
      assert HasWhole(ws, tries, b);
      var i :| 0 <= i < |tries| && tries[i].batch == b && Whole(ws[i], tries[i]);
    }
  }

  /**
   All complete histories of a plan that begin in the same state end in the same state: whatever the
   order of the submissions, and however often each of them was cut off before it got through.
   */
  lemma CompleteHistoriesAgree(a: Db, g: GenerationId, plan: Plan, c: Db, d: Db, o: Tools)
    requires Faithful(o) && Planned(a, g, plan, o) && Completed(a, plan, c, o) && Completed(a, plan, d, o)
    ensures c == d
  {
    hide Planned, InPlan, Ran, Completed, Agree;
    var xs := CompleteHistoryRuns(a, g, plan, c, o);
    var ys := CompleteHistoryRuns(a, g, plan, d, o);
    forall x, y | x in xs && y in xs ensures Agree(x, y) {
      PlanIsCoherent(a, g, plan, o, x, y);
    }
    SameWritesSameState(a, xs, c, ys, d);
  }

  /** A history goes on after an interruption. */
  lemma HistoryGoesOn(plan: Plan, ws: seq<Db>, tries: seq<Attempt>, us: seq<Db>, more: seq<Attempt>, o: Tools)
    requires Attempted(plan, ws, tries, o) && Attempted(plan, us, more, o) && ws[|tries|] == us[0]
    ensures Attempted(plan, ws + us[1..], tries + more, o) && (ws + us[1..])[|tries + more|] == us[|more|]
    ensures forall b :: HasWhole(us, more, b) ==> HasWhole(ws + us[1..], tries + more, b)
  {
    hide Cut, Whole;
    var vs, all := ws + us[1..], tries + more;
    assert forall i :: 0 <= i < |us| ==> vs[|tries| + i] == us[i];
    assert forall i :: 0 <= i < |more| ==> all[|tries| + i] == more[i];
    forall i | 0 <= i < |all|
      ensures all[i].batch in plan && Cut(vs[i], all[i].batch, plan[all[i].batch], all[i].writes, vs[i + 1], o)
    {
      if i >= |tries| {
        assert vs[i] == us[i - |tries|] && vs[i + 1] == us[i - |tries| + 1] && all[i] == more[i - |tries|];
      }
    }
    forall b | HasWhole(us, more, b) ensures HasWhole(vs, all, b) {
      var i :| 0 <= i < |more| && more[i].batch == b && Whole(us[i], more[i]);
      assert all[|tries| + i].batch == b && Whole(vs[|tries| + i], all[|tries| + i]);
    }
  }

  lemma InterruptedThenCompleted(a: Db, plan: Plan, mid: Db, c: Db, o: Tools)
    requires Interrupted(a, plan, mid, o) && Completed(mid, plan, c, o)
    ensures Completed(a, plan, c, o)
  {
    hide Cut, HasWhole;
    var ws: seq<Db>, tries: seq<Attempt> :| Attempted(plan, ws, tries, o) && ws[0] == a && ws[|tries|] == mid;
    var us: seq<Db>, more: seq<Attempt> :| Attempted(plan, us, more, o) && us[0] == mid && us[|more|] == c
                    && forall b :: b in plan ==> HasWhole(us, more, b);
    HistoryGoesOn(plan, ws, tries, us, more, o);
  }

  lemma {:induction false} HistoryKeepsWork(plan: Plan, ws: seq<Db>, tries: seq<Attempt>, n: nat, o: Tools)
    requires Attempted(plan, ws, tries, o) && n <= |tries|
    ensures SameWorkItems(ws[0], ws[n])
    decreases n
  {
    hide Cut;
    if n > 0 {
      HistoryKeepsWork(plan, ws, tries, n - 1, o);
      CutKeepsWork(ws[n - 1], tries[n - 1].batch, plan[tries[n - 1].batch], tries[n - 1].writes, ws[n], o);
    }
  }

  /** The provider has a vector for every answer of the plan. */
  ghost predicate Provided(a: Db, plan: Plan, o: Tools) {
    forall b :: b in plan && Answers(a, b, plan[b]) ==>
      VectorsExist(a.artifacts, a.batches[b].request.items, Guidances(plan[b].answers), o)
  }

  lemma CompletedAnswers(a: Db, plan: Plan, c: Db, b: BatchId, o: Tools)
    requires Completed(a, plan, c, o) && b in plan
    ensures Answers(a, b, plan[b])
  {
    hide Ran, SubmitTxs, Whole;
    var ws: seq<Db>, tries: seq<Attempt> :| Attempted(plan, ws, tries, o) && ws[0] == a && ws[|tries|] == c
                                            && forall b :: b in plan ==> HasWhole(ws, tries, b);
    assert HasWhole(ws, tries, b);
    var i :| 0 <= i < |tries| && tries[i].batch == b && Whole(ws[i], tries[i]);
    HistoryKeepsWork(plan, ws, tries, i, o);
    assert Cut(ws[i], b, plan[b], tries[i].writes, ws[i + 1], o);
    assert b in ws[i].batches && ws[i].batches[b].request == a.batches[b].request;
  }

  lemma InterruptedKeepsWork(a: Db, plan: Plan, mid: Db, o: Tools)
    requires Interrupted(a, plan, mid, o)
    ensures SameWorkItems(a, mid)
  {
    hide Cut;
    var ws: seq<Db>, tries: seq<Attempt> :| Attempted(plan, ws, tries, o) && ws[0] == a && ws[|tries|] == mid;
    HistoryKeepsWork(plan, ws, tries, |tries|, o);
  }

  lemma SoundWork(db: Db, b: BatchId, c: BatchId)
    requires IndexSound(db) && b in db.batches && c in db.batches
    ensures db.batches[b].request.ToolRequest? ==> DistinctWork(db.batches[b].request.items)
    ensures b != c && b.generation == c.generation ==> RequestTools(db.batches[b].request) !! RequestTools(db.batches[c].request)
  {
    hide GenerationSound;
  }

  lemma PlanOfSoundIndex(a: Db, g: GenerationId, plan: Plan, mid: Db, c: Db, o: Tools)
    requires IndexSound(mid) && (forall b :: b in plan ==> b.generation == g) && Provided(a, plan, o)
    requires Interrupted(a, plan, mid, o) && Completed(a, plan, c, o)
    ensures Planned(a, g, plan, o)
  {
    hide IndexSound, Interrupted, Completed, VectorsExist, DistinctWork, Guidances, WorkTools;
    InterruptedKeepsWork(a, plan, mid, o);
    forall b | b in plan ensures Answers(a, b, plan[b]) && DistinctWork(a.batches[b].request.items) {
      CompletedAnswers(a, plan, c, b, o);
      SoundWork(mid, b, b);
    }
    forall b, x | b in plan && x in plan && b != x
      ensures RequestTools(a.batches[b].request) !! RequestTools(a.batches[x].request)
    {
      SoundWork(mid, b, x);
    }
  }

  /**
   Repair reaches the state of an uninterrupted run: submissions to any batches of a generation, each cut
   off anywhere and any number of times, and then all of them made again, end where every complete
   history of these submissions ends.
   */
  lemma RepairReachesEnd(a: Db, g: GenerationId, plan: Plan, mid: Db, repaired: Db, c: Db, o: Tools)
    requires Faithful(o) && IndexSound(mid) && (forall b :: b in plan ==> b.generation == g) && Provided(a, plan, o)
    requires Interrupted(a, plan, mid, o) && Completed(mid, plan, repaired, o) && Completed(a, plan, c, o)
    ensures repaired == c
  {
    hide IndexSound, Interrupted, Completed, Provided, Planned;
    PlanOfSoundIndex(a, g, plan, mid, c, o);
    InterruptedThenCompleted(a, plan, mid, repaired, o);
    CompleteHistoriesAgree(a, g, plan, repaired, c, o);
  }

  lemma {:induction false} RanKeepsBatches(a: Db, txs: seq<Tx>, c: Db)
    requires Ran(a, txs, c) && forall x :: x in txs ==> !x.PutBatches? && (x.AcceptBatch? ==> Done(a, x))
    ensures c.batches == a.batches
    decreases |txs|
  {
    if txs != [] {
      if txs[0].AcceptBatch? {
        DoneIsNoop(a, txs[0]);
      }
      RanKeepsBatches(Exec(a, txs[0]).value, txs[1..], c);
    }
  }

  /** Submitting a response that is accepted already leaves the batches as they are. */
  lemma RepeatKeepsBatches(a: Db, b: BatchId, response: Response, k: nat, c: Db, o: Tools)
    requires Cut(a, b, response, k, c, o) && a.batches[b].accepted == Some(response)
    ensures c.batches == a.batches
  {
    hide Ran, SubmitTxs, About;
    var txs, items := TxsFor(a, b, response, o), a.batches[b].request.items;
    forall x | x in txs[..k] ensures !x.PutBatches? && (x.AcceptBatch? ==> Done(a, x)) {
      assert x in txs;
      WriteOfSubmission(a.artifacts, b, items, response.answers, o, x);
      if x != AcceptBatch(b, ToolResponse(response.answers)) {
        var t :| t in WorkTools(items) && About(x, b.generation, t);
        AboutIsNoBatch(x, b.generation, t);
      }
    }
    RanKeepsBatches(a, txs[..k], c);
  }

  /** The history so far, with one more attempt. */
  lemma OneMoreAttempt(plan: Plan, ws: seq<Db>, tries: seq<Attempt>, b: BatchId, n: nat, c: Db, o: Tools)
    requires Attempted(plan, ws, tries, o) && b in plan && Cut(ws[|tries|], b, plan[b], n, c, o)
    ensures Attempted(plan, ws + [c], tries + [Attempt(b, n)], o)
    ensures forall x :: HasWhole(ws, tries, x) ==> HasWhole(ws + [c], tries + [Attempt(b, n)], x)
    ensures Whole(ws[|tries|], Attempt(b, n)) ==> HasWhole(ws + [c], tries + [Attempt(b, n)], b)
  {
    hide Cut, Whole;
    var d, one := ws[|tries|], [Attempt(b, n)];
    assert Attempted(plan, [d, c], one, o);
    HistoryGoesOn(plan, ws, tries, [d, c], one, o);
    assert ws + [d, c][1..] == ws + [c];
    var vs, all := ws + [c], tries + one;
    forall x | HasWhole(ws, tries, x) ensures HasWhole(vs, all, x) {
      var i :| 0 <= i < |tries| && tries[i].batch == x && Whole(ws[i], tries[i]);
      assert all[i] == tries[i] && vs[i] == ws[i];
    }
    if Whole(d, Attempt(b, n)) {
      assert all[|tries|] == Attempt(b, n) && vs[|tries|] == d;
    }
  }

  lemma HistoryInterrupts(a: Db, plan: Plan, ws: seq<Db>, tries: seq<Attempt>, c: Db, o: Tools)
    requires Attempted(plan, ws, tries, o) && ws[0] == a && ws[|tries|] == c
    ensures Interrupted(a, plan, c, o)
    ensures (forall b :: b in plan ==> HasWhole(ws, tries, b)) ==> Completed(a, plan, c, o)
  {
    hide Cut, HasWhole;
  }

  /** The special case of one batch: cut off after any number of writes and submitted again, it ends as if uninterrupted. */
  lemma CrashThenRepair(a: Db, k: nat, mid: Db, final: Db, b: BatchId, response: Response, o: Tools)
    requires Faithful(o) && Cut(a, b, response, k, mid, o) && DistinctWork(a.batches[b].request.items)
    requires VectorsExist(a.artifacts, a.batches[b].request.items, Guidances(response.answers), o)
    requires Ran(a, TxsFor(a, b, response, o), final)
    ensures Answers(mid, b, response) && Ran(mid, TxsFor(mid, b, response, o), final)
  {
    hide Exec, Ran, SubmitTxs, VectorsExist, InPlan;
    var plan := map[b := response];
    assert Planned(a, b.generation, plan, o) && Reached(a, plan, a, o);
    ReachedNext(a, b.generation, plan, a, b, k, mid, o);
    SameWritesLater(a, b.generation, plan, mid, b, o);
    SubmissionIsCoherent(a.artifacts, b, a.batches[b].request.items, response.answers, o);
    RerunReachesSame(a, TxsFor(a, b, response, o), k, mid, final);
  }

  // ---------------------------------------------------------------------------------------------
  // Capability submissions
  // ---------------------------------------------------------------------------------------------

  lemma CapabilityIsCoherent(c: Content, b: BatchId, tools: set<Tool>, hierarchy: string, proposals: seq<string>)
    ensures Coherent(CapabilityTxs(c, b, tools, hierarchy, proposals))
  {
    hide GuidanceItems;
    var g, spec := b.generation, HierarchySpec(GuidanceItems(c, tools));
    var a := Artifact(spec, hierarchy);
    var all := {AcceptBatch(b, CapabilityResponse(hierarchy, proposals)), PutBatches(ReviewBatches(g, proposals)), PutArtifact(a),
                AttachArtifact(g, HierarchySlot, a), SatisfyDependency(g, ArtifactKey(HierarchySlot), OfSpec(spec)),
                SatisfyDependency(g, CapabilityGate, OfSources(c.sources))};
    assert forall x :: x in CapabilityTxs(c, b, tools, hierarchy, proposals) ==> x in all;
    assert forall x, y :: x in all && y in all ==> Agree(x, y);
  }

  /** Writes that leave the sources of a generation and the guidance attached in it alone. */
  predicate KeepsGuidance(tx: Tx) {
    tx.AcceptBatch? || tx.PutBatches? || tx.PutArtifact? || tx.RequireDependency? || tx.SatisfyDependency? || (tx.AttachArtifact? && tx.slot.HierarchySlot?)
  }

  lemma GuidanceKept(db: Db, tx: Tx, g: GenerationId, tools: set<Tool>)
    requires g in db.generations && KeepsGuidance(tx) && Exec(db, tx).Ok?
    ensures var u := Exec(db, tx).value;
            && g in u.generations && u.generations[g].content.sources == db.generations[g].content.sources
            && GuidanceItems(u.generations[g].content, tools) == GuidanceItems(db.generations[g].content, tools)
  {
    hide PutBatchesError, AcceptError;
  }

  lemma {:induction false} RanKeepsGuidance(a: Db, txs: seq<Tx>, b: Db, g: GenerationId, tools: set<Tool>)
    requires g in a.generations && Ran(a, txs, b) && forall x :: x in txs ==> KeepsGuidance(x)
    ensures g in b.generations && b.generations[g].content.sources == a.generations[g].content.sources
    ensures GuidanceItems(b.generations[g].content, tools) == GuidanceItems(a.generations[g].content, tools)
    decreases |txs|
  {
    hide Exec, GuidanceItems, KeepsGuidance;
    if txs != [] {
      GuidanceKept(a, txs[0], g, tools);
      RanKeepsGuidance(Exec(a, txs[0]).value, txs[1..], b, g, tools);
    }
  }

  lemma CapabilityKeepsGuidance(c: Content, b: BatchId, tools: set<Tool>, hierarchy: string, proposals: seq<string>)
    ensures forall x :: x in CapabilityTxs(c, b, tools, hierarchy, proposals) ==> KeepsGuidance(x)
  {
  }

  lemma {:induction false} RanExtends(a: Db, txs: seq<Tx>, b: Db)
    requires Ran(a, txs, b)
    ensures Extends(a, b)
    decreases |txs|
  {
    hide Exec, Extends;
    if txs == [] {
      ExtendsItself(a);
    } else {
      var next := Exec(a, txs[0]).value;
      TxExtends(a, txs[0]);
      RanExtends(next, txs[1..], b);
      ExtendsTransitive(a, next, b);
    }
  }

  lemma ExtendsItself(a: Db)
    ensures Extends(a, a)
  {
  }

  /** A capability submission that starts again computes the same writes. */
  lemma SameCapabilityWrites(a: Db, b: BatchId, response: Response, k: nat, mid: Db)
    requires CapabilityCut(a, b, response, k, mid)
    ensures Reconciles(mid, b, response, true) && b.generation in mid.generations
    ensures CapabilityTxsFor(mid, b, response) == CapabilityTxsFor(a, b, response)
  {
    hide Exec, Ran, GuidanceItems, KeepsGuidance, HierarchyTxs;
    var tools, txs := a.batches[b].request.tools, CapabilityTxsFor(a, b, response);
    CapabilityKeepsGuidance(a.generations[b.generation].content, b, tools, response.hierarchy, response.proposals);
    assert forall x :: x in txs[..k] ==> x in txs;
    RanKeepsGuidance(a, txs[..k], mid, b.generation, tools);
    RanExtends(a, txs[..k], mid);
  }

  /** A capability submission that was cut off and made again, cut off or not, has come as far as the longer of the two. */
  lemma CapabilityCutAgain(a: Db, b: BatchId, response: Response, k: nat, mid: Db, n: nat, c: Db)
    requires CapabilityCut(a, b, response, k, mid) && CapabilityCut(mid, b, response, n, c)
    ensures CapabilityCut(a, b, response, if k < n then n else k, c)
  {
    hide Exec, Ran, Done, Agree, CapabilityTxs;
    SameCapabilityWrites(a, b, response, k, mid);
    var txs := CapabilityTxsFor(a, b, response);
    assert Coherent(txs) by {
      CapabilityIsCoherent(a.generations[b.generation].content, b, a.batches[b].request.tools, response.hierarchy, response.proposals);
    }
    assert [] + txs[..k] == txs[..k];
    RanIsDone(a, txs[..k], mid, []);
    if n <= k {
      assert forall x :: x in txs[..n] ==> x in txs[..k];
      DoneRuns(mid, txs[..n]);
      RanIsOne(mid, txs[..n], mid, c);
    } else {
      assert txs[..n][..k] == txs[..k];
      DoneRuns(mid, txs[..k]);
      RanSplits(mid, txs[..n], k, mid, c);
      RanAppend(a, txs[..k], mid, txs[..n][k..], c);
      assert txs[..k] + txs[..n][k..] == txs[..n];
    }
  }

  /** Cut off anywhere and then made again in full, a capability submission ends where the uninterrupted one ends. */
  lemma CapabilityCrashThenRepair(a: Db, b: BatchId, response: Response, k: nat, mid: Db, repaired: Db, final: Db)
    requires CapabilityCut(a, b, response, k, mid) && CapabilityCut(mid, b, response, 6, repaired)
    requires CapabilityCut(a, b, response, 6, final)
    ensures repaired == final
  {
    hide Ran, CapabilityTxs;
    CapabilityCutAgain(a, b, response, k, mid, 6, repaired);
    RanIsOne(a, CapabilityTxsFor(a, b, response)[..6], repaired, final);
  }
}
