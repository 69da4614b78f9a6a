/**
 Writes that may be repeated and reordered. Each kind of write that a submission makes is a no-op once its
 effect is there, and writes that agree commute; so two runs that make the same writes end in the same
 state, in whatever order they make them and however often.
 */
module Confluence {
  import opened Common
  import opened CatalogModel

  /** The effect of a write is there, and the write would be accepted again. */
  ghost predicate Done(db: Db, tx: Tx) {
    match tx
    case PutArtifact(a) => a in db.artifacts
    case AttachArtifact(g, slot, a) =>
      && StagingError(db, g).None?
      && slot in db.generations[g].content.attached && db.generations[g].content.attached[slot] == a
    case RequireDependency(g, key, expected) =>
      && StagingError(db, g).None? && key in db.generations[g].content.requirements
      && var row := db.generations[g].content.requirements[key];
         row.expected == expected && (row.complete ==> row.actual == Some(expected))
    case SatisfyDependency(g, key, actual) =>
      && StagingError(db, g).None? && key in db.generations[g].content.requirements
      && var row := db.generations[g].content.requirements[key];
         row.actual == Some(actual) && row.complete
    case AcceptBatch(b, response) => b in db.batches && db.batches[b].accepted == Some(response)
    case PutBatches(batches) =>
      forall b :: b in batches ==>
        StagingError(db, b.generation).None? && b in db.batches && db.batches[b].(accepted := None) == batches[b]
    case _ => false
  }

  /** Writes of the kinds that a submission makes. */
  predicate Repeatable(tx: Tx) {
    || tx.PutArtifact? || tx.AttachArtifact? || tx.RequireDependency? || tx.SatisfyDependency? || tx.AcceptBatch?
    || (tx.PutBatches? && forall b :: b in tx.batches ==> tx.batches[b].accepted.None?)
  }

  /** Two writes do not undo each other. */
  predicate Agree(x: Tx, y: Tx) {
    && Repeatable(x) && Repeatable(y)
    && (x.AttachArtifact? && y.AttachArtifact? && x.id == y.id && x.slot == y.slot ==> x.artifact == y.artifact)
    && (x.RequireDependency? && y.RequireDependency? && x.id == y.id && x.key == y.key ==> x.expected == y.expected)
    && (x.SatisfyDependency? && y.SatisfyDependency? && x.id == y.id && x.key == y.key ==> x.actual == y.actual)
    && (x.RequireDependency? && y.SatisfyDependency? && x.id == y.id && x.key == y.key ==> x.expected == y.actual)
    && (x.SatisfyDependency? && y.RequireDependency? && x.id == y.id && x.key == y.key ==> x.actual == y.expected)
    && (x.AcceptBatch? && y.AcceptBatch? && x.batch == y.batch ==> x.response == y.response)
    && (x.PutBatches? && y.PutBatches? ==> forall b :: b in x.batches && b in y.batches ==> x.batches[b] == y.batches[b])
  }

  lemma DoneIsNoop(db: Db, tx: Tx)
    requires Done(db, tx)
    ensures Exec(db, tx) == Ok(db)
  {
    match tx
    case AttachArtifact(g, slot, a) =>
      var c := db.generations[g].content;
      assert c.attached[slot := a] == c.attached;
      NothingRewritten(db, g, AttachedTo(c, slot, a));
    case RequireDependency(g, key, expected) =>
      var c := db.generations[g].content;
      assert Required(c, key, expected).requirements == c.requirements;
      NothingRewritten(db, g, Required(c, key, expected));
    case SatisfyDependency(g, key, actual) =>
      var c := db.generations[g].content;
      assert Satisfied(c, key, actual).requirements == c.requirements;
      NothingRewritten(db, g, Satisfied(c, key, actual));
    case PutArtifact(a) => assert db.artifacts + {a} == db.artifacts;
    case AcceptBatch(b, r) => assert db.batches[b := db.batches[b].(accepted := Some(r))] == db.batches;
    case PutBatches(batches) => assert batches + db.batches == db.batches;
  }

  lemma NothingRewritten(db: Db, g: GenerationId, c: Content)
    requires g in db.generations && c == db.generations[g].content
    ensures Rewritten(db, g, c) == db
  {
    assert db.generations[g := db.generations[g].(content := c)] == db.generations;
  }

  lemma ExecIsDone(db: Db, tx: Tx)
    requires Repeatable(tx) && Exec(db, tx).Ok?
    ensures Done(Exec(db, tx).value, tx)
  {
  }

  lemma RequiredIsKept(db: Db, x: Tx, y: Tx)
    requires Done(db, x) && Agree(x, y) && Exec(db, y).Ok? && x.RequireDependency?
    ensures Done(Exec(db, y).value, x)
  {
  }

  lemma SatisfiedIsKept(db: Db, x: Tx, y: Tx)
    requires Done(db, x) && Agree(x, y) && Exec(db, y).Ok? && x.SatisfyDependency?
    ensures Done(Exec(db, y).value, x)
  {
  }

  lemma AttachedIsKept(db: Db, x: Tx, y: Tx)
    requires Done(db, x) && Agree(x, y) && Exec(db, y).Ok? && x.AttachArtifact?
    ensures Done(Exec(db, y).value, x)
  {
  }

  lemma BatchesAreKept(db: Db, x: Tx, y: Tx)
    requires Done(db, x) && Agree(x, y) && Exec(db, y).Ok? && (x.PutBatches? || x.AcceptBatch? || x.PutArtifact?)
    ensures Done(Exec(db, y).value, x)
  {
  }

  lemma DoneIsKept(db: Db, x: Tx, y: Tx)
    requires Done(db, x) && Agree(x, y) && Exec(db, y).Ok?
    ensures Done(Exec(db, y).value, x)
  {
    hide Done, Exec;
    AgreeRepeatable(x, y);
    match x
    case RequireDependency(_, _, _) => RequiredIsKept(db, x, y);
    case SatisfyDependency(_, _, _) => SatisfiedIsKept(db, x, y);
    case AttachArtifact(_, _, _) => AttachedIsKept(db, x, y);
    case _ => BatchesAreKept(db, x, y);
  }

  ghost predicate Coherent(txs: seq<Tx>) {
    forall x, y :: x in txs && y in txs ==> Agree(x, y)
  }

  /** All effects of a run are there at its end. */
  lemma {:induction false} RanIsDone(a: Db, txs: seq<Tx>, b: Db, done: seq<Tx>)
    requires Ran(a, txs, b) && Coherent(done + txs) && forall x :: x in done ==> Done(a, x)
    ensures forall x :: x in done + txs ==> Done(b, x)
    decreases |txs|
  {
    hide Exec, Done, Agree;
    if txs == [] {
      assert done + txs == done;
    } else {
      var tx, next := txs[0], Exec(a, txs[0]).value;
      var done' := done + [tx];
      assert done' + txs[1..] == done + txs;
      assert tx in done + txs;
      assert Repeatable(tx) by { AgreeRepeatable(tx, tx); }
      ExecIsDone(a, tx);
      forall x | x in done' ensures Done(next, x) {
        if x in done {
          assert x in done + txs;
          DoneIsKept(a, x, tx);
        }
      }
      RanIsDone(next, txs[1..], b, done');
    }
  }

  lemma AgreeRepeatable(x: Tx, y: Tx)
    requires Agree(x, y)
    ensures Repeatable(x)
  {
  }

  /** Running writes whose effects are there changes nothing. */
  lemma {:induction false} DoneRuns(db: Db, txs: seq<Tx>)
    requires forall x :: x in txs ==> Done(db, x)
    ensures Ran(db, txs, db)
    decreases |txs|
  {
    hide Exec, Done;
    if txs != [] {
      DoneIsNoop(db, txs[0]);
      DoneRuns(db, txs[1..]);
    }
  }

  /** A run can be cut in two. */
  lemma {:induction false} RanSplits(a: Db, txs: seq<Tx>, k: nat, b: Db, c: Db)
    requires k <= |txs| && Ran(a, txs[..k], b) && Ran(a, txs, c)
    ensures Ran(b, txs[k..], c)
    decreases k
  {
    hide Exec;
    if k == 0 {
      assert txs[0..] == txs;
    } else {
      assert txs[..k][1..] == txs[1..][..k - 1];
      RanSplits(Exec(a, txs[0]).value, txs[1..], k - 1, b, c);
      assert txs[1..][k - 1..] == txs[k..];
    }
  }

  /** A coherent run that was cut off after `k` writes and started again ends where the uninterrupted one ends. */
  lemma RerunReachesSame(a: Db, txs: seq<Tx>, k: nat, b: Db, c: Db)
    requires Coherent(txs) && k <= |txs| && Ran(a, txs[..k], b) && Ran(a, txs, c)
    ensures Ran(b, txs, c)
  {
    hide Exec, Done, Agree;
    assert [] + txs[..k] == txs[..k];
    RanIsDone(a, txs[..k], b, []);
    DoneRuns(b, txs[..k]);
    RanSplits(a, txs, k, b, c);
    RanAppend(b, txs[..k], b, txs[k..], c);
    assert txs[..k] + txs[k..] == txs;
  }

  // ---------------------------------------------------------------------------------------------
  // The order of the writes
  // ---------------------------------------------------------------------------------------------

  predicate Edits(tx: Tx) {
    tx.AttachArtifact? || tx.RequireDependency? || tx.SatisfyDependency?
  }

  predicate Editable(c: Content, tx: Tx) {
    tx.SatisfyDependency? ==> tx.key in c.requirements
  }

  function Edited(c: Content, tx: Tx): Content
    requires Edits(tx) && Editable(c, tx)
  {
    match tx
    case AttachArtifact(_, slot, a) => AttachedTo(c, slot, a)
    case RequireDependency(_, key, expected) => Required(c, key, expected)
    case SatisfyDependency(_, key, actual) => Satisfied(c, key, actual)
  }

  lemma ExecEdits(db: Db, tx: Tx)
    requires Edits(tx)
    ensures Exec(db, tx).Ok? <==> StagingError(db, tx.id).None? && Editable(db.generations[tx.id].content, tx)
    ensures Exec(db, tx).Ok? ==> Exec(db, tx).value == Rewritten(db, tx.id, Edited(db.generations[tx.id].content, tx))
  {
  }

  lemma RequireTwice(c: Content, k: Key, e: Fingerprint, l: Key, f: Fingerprint)
    requires k == l ==> e == f
    ensures Required(Required(c, k, e), l, f) == Required(Required(c, l, f), k, e)
  {
    assert Required(Required(c, k, e), l, f).requirements == Required(Required(c, l, f), k, e).requirements;
  }

  lemma RequireSatisfy(c: Content, k: Key, e: Fingerprint, l: Key, f: Fingerprint)
    requires l in c.requirements && (k == l ==> e == f)
    ensures Satisfied(Required(c, k, e), l, f) == Required(Satisfied(c, l, f), k, e)
  {
    assert Satisfied(Required(c, k, e), l, f).requirements == Required(Satisfied(c, l, f), k, e).requirements;
  }

  lemma SatisfyTwice(c: Content, k: Key, e: Fingerprint, l: Key, f: Fingerprint)
    requires k in c.requirements && l in c.requirements && (k == l ==> e == f)
    ensures Satisfied(Satisfied(c, k, e), l, f) == Satisfied(Satisfied(c, l, f), k, e)
  {
    assert Satisfied(Satisfied(c, k, e), l, f).requirements == Satisfied(Satisfied(c, l, f), k, e).requirements;
  }

  lemma EditsCommute(c: Content, x: Tx, y: Tx)
    requires Edits(x) && Edits(y) && x.id == y.id && Agree(x, y) && Editable(c, x) && Editable(c, y)
    ensures Editable(Edited(c, x), y) && Editable(Edited(c, y), x)
    ensures Edited(Edited(c, x), y) == Edited(Edited(c, y), x)
  {
    match (x, y)
    case (RequireDependency(_, k, e), RequireDependency(_, l, f)) => RequireTwice(c, k, e, l, f);
    case (RequireDependency(_, k, e), SatisfyDependency(_, l, f)) => RequireSatisfy(c, k, e, l, f);
    case (SatisfyDependency(_, k, e), RequireDependency(_, l, f)) => RequireSatisfy(c, l, f, k, e);
    case (SatisfyDependency(_, k, e), SatisfyDependency(_, l, f)) => SatisfyTwice(c, k, e, l, f);
    case (AttachArtifact(_, s, a), AttachArtifact(_, t, b)) =>
      assert c.attached[s := a][t := b] == c.attached[t := b][s := a];
    case (_, _) =>
  }

  /** Two agreeing writes that are both possible can be made in either order, with the same result. */
  ghost predicate Commute(db: Db, x: Tx, y: Tx)
    requires Exec(db, x).Ok? && Exec(db, y).Ok?
  {
    && Exec(Exec(db, x).value, y).Ok? && Exec(Exec(db, y).value, x).Ok?
    && Exec(Exec(db, x).value, y).value == Exec(Exec(db, y).value, x).value
  }

  lemma EditDiamond(db: Db, x: Tx, y: Tx)
    requires Agree(x, y) && Edits(x) && Edits(y) && Exec(db, x).Ok? && Exec(db, y).Ok?
    ensures Commute(db, x, y)
  {
    hide Exec, Edited, Editable, Agree;
    ExecEdits(db, x);
    ExecEdits(db, y);
    ExecEdits(Exec(db, x).value, y);
    ExecEdits(Exec(db, y).value, x);
    if x.id == y.id {
      EditsCommute(db.generations[x.id].content, x, y);
    }
    assert Exec(Exec(db, x).value, y).value.generations == Exec(Exec(db, y).value, x).value.generations;
  }

  lemma EditOtherDiamond(db: Db, x: Tx, y: Tx)
    requires Agree(x, y) && Edits(x) && !Edits(y) && Exec(db, x).Ok? && Exec(db, y).Ok?
    ensures Commute(db, x, y)
  {
    hide Edited, Editable;
    ExecEdits(db, x);
    ExecEdits(Exec(db, y).value, x);
  }

  lemma ExecPuts(db: Db, batches: map<BatchId, Batch>)
    ensures Exec(db, PutBatches(batches)).Ok? <==> PutBatchesError(db, batches).None?
    ensures Exec(db, PutBatches(batches)).Ok? ==> Exec(db, PutBatches(batches)).value == db.(batches := batches + db.batches)
  {
  }

  lemma SameStaging(db: Db, batches: map<BatchId, Batch>)
    ensures forall g :: StagingError(db.(batches := batches), g) == StagingError(db, g)
  {
  }

  lemma PutsStayPossible(db: Db, x: map<BatchId, Batch>, y: map<BatchId, Batch>)
    requires PutBatchesError(db, x).None? && PutBatchesError(db, y).None? && Agree(PutBatches(x), PutBatches(y))
    ensures PutBatchesError(db.(batches := x + db.batches), y).None?
  {
    hide StagingError;
    SameStaging(db, x + db.batches);
    var u := db.(batches := x + db.batches);
    forall b | b in y && b in u.batches ensures u.batches[b].(accepted := None) == y[b] {
      if b !in db.batches {
        assert u.batches[b] == x[b] == y[b];
      }
    }
  }

  lemma BatchesDiamond(db: Db, x: Tx, y: Tx)
    requires Agree(x, y) && x.PutBatches? && y.PutBatches? && Exec(db, x).Ok? && Exec(db, y).Ok?
    ensures Commute(db, x, y)
  {
    hide Exec, PutBatchesError;
    ExecPuts(db, x.batches);
    ExecPuts(db, y.batches);
    ExecPuts(Exec(db, x).value, y.batches);
    ExecPuts(Exec(db, y).value, x.batches);
    PutsStayPossible(db, x.batches, y.batches);
    PutsStayPossible(db, y.batches, x.batches);
    assert y.batches + (x.batches + db.batches) == x.batches + (y.batches + db.batches);
  }

  lemma AcceptDiamond(db: Db, x: Tx, y: Tx)
    requires Agree(x, y) && x.AcceptBatch? && y.AcceptBatch? && Exec(db, x).Ok? && Exec(db, y).Ok?
    ensures Commute(db, x, y)
  {
    assert Exec(Exec(db, x).value, y).value.batches == Exec(Exec(db, y).value, x).value.batches;
  }

  lemma AcceptPutDiamond(db: Db, x: Tx, y: Tx)
    requires Agree(x, y) && x.AcceptBatch? && y.PutBatches? && Exec(db, x).Ok? && Exec(db, y).Ok?
    ensures Commute(db, x, y)
  {
    assert y.batches + db.batches[x.batch := db.batches[x.batch].(accepted := Some(x.response))]
        == (y.batches + db.batches)[x.batch := db.batches[x.batch].(accepted := Some(x.response))];
  }

  lemma ArtifactDiamond(db: Db, x: Tx, y: Tx)
    requires Agree(x, y) && x.PutArtifact? && !Edits(y) && Exec(db, y).Ok?
    ensures Exec(db, x).Ok? && Commute(db, x, y)
  {
    if y.PutArtifact? {
      assert db.artifacts + {x.artifact} + {y.artifact} == db.artifacts + {y.artifact} + {x.artifact};
    }
  }

  lemma Diamond(db: Db, x: Tx, y: Tx)
    requires Agree(x, y) && Agree(y, x) && Exec(db, x).Ok? && Exec(db, y).Ok?
    ensures Commute(db, x, y)
  {
    hide Exec, Agree;
    AgreeRepeatable(x, y);
    AgreeRepeatable(y, x);
    if Edits(x) {
      if Edits(y) { EditDiamond(db, x, y); } else { EditOtherDiamond(db, x, y); }
    } else if Edits(y) {
      EditOtherDiamond(db, y, x);
    } else if x.PutArtifact? {
      ArtifactDiamond(db, x, y);
    } else if y.PutArtifact? {
      ArtifactDiamond(db, y, x);
    } else if x.AcceptBatch? {
      if y.AcceptBatch? { AcceptDiamond(db, x, y); } else { AcceptPutDiamond(db, x, y); }
    } else if y.AcceptBatch? {
      AcceptPutDiamond(db, y, x);
    } else {
      BatchesDiamond(db, x, y);
    }
  }

  /** A single write can be made after a run instead of before it. */
  lemma {:induction false} Strip(a: Db, x: Tx, txs: seq<Tx>, c: Db) returns (d: Db)
    requires Exec(a, x).Ok? && Ran(a, txs, c) && forall y :: y in txs ==> Agree(x, y) && Agree(y, x)
    ensures Ran(Exec(a, x).value, txs, d) && Exec(c, x) == Ok(d)
    decreases |txs|
  {
    hide Exec, Agree;
    if txs == [] {
      d := Exec(a, x).value;
    } else {
      Diamond(a, x, txs[0]);
      d := Strip(Exec(a, txs[0]).value, x, txs[1..], c);
    }
  }

  /** Runs of writes that agree can be continued to a common end, each by the writes of the other. */
  lemma {:induction false} Confluent(a: Db, xs: seq<Tx>, b: Db, ys: seq<Tx>, c: Db) returns (d: Db)
    requires Ran(a, xs, b) && Ran(a, ys, c) && forall x, y :: x in xs && y in ys ==> Agree(x, y) && Agree(y, x)
    ensures Ran(b, ys, d) && Ran(c, xs, d)
    decreases |xs|
  {
    hide Exec, Agree;
    if xs == [] {
      d := c;
    } else {
      var c' := Strip(a, xs[0], ys, c);
      d := Confluent(Exec(a, xs[0]).value, xs[1..], b, ys, c');
    }
  }

  /** Two runs from the same state that make the same writes, in any order and any number of times, end in the same state. */
  lemma SameWritesSameState(a: Db, xs: seq<Tx>, b: Db, ys: seq<Tx>, c: Db)
    requires Ran(a, xs, b) && Ran(a, ys, c) && Coherent(xs) && forall x :: x in xs <==> x in ys
    ensures b == c
  {
    hide Exec, Agree, Done, Ran;
    assert Coherent(ys);
    assert [] + xs == xs && [] + ys == ys;
    RanIsDone(a, xs, b, []);
    RanIsDone(a, ys, c, []);
    DoneRuns(b, ys);
    DoneRuns(c, xs);
    var d := Confluent(a, xs, b, ys, c);
    RanIsOne(b, ys, b, d);
    RanIsOne(c, xs, c, d);
  }

  lemma {:induction false} RanIsOne(a: Db, txs: seq<Tx>, b: Db, c: Db)
    requires Ran(a, txs, b) && Ran(a, txs, c)
    ensures b == c
    decreases |txs|
  {
    hide Exec;
    if txs != [] {
      RanIsOne(Exec(a, txs[0]).value, txs[1..], b, c);
    }
  }
}
