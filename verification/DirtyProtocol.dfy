/**
 Dirty markers under concurrency. A marker may be written at any time, also while a refresh is under
 way; refresh and promotion exclude each other. A refresh remembers the markers it saw at its start and
 clears, at its end, those that are still the same.
 */
module DirtyProtocol {
  import opened Common
  import opened CatalogModel

  type Markers = map<string, Marker>

  /** The marker table, and what the refresh under way saw when it began. */
  datatype State = State(dirty: Markers, observed: Option<Markers>)

  datatype Event =
    | Mark(partition: string, marker: Marker)
    | BeginRefresh
    | ClearOne(partition: string)
    | EndRefresh
    | PromoteNow

  predicate Enabled(s: State, e: Event) {
    match e
    case Mark(p, m) => p != "" && m.reason != ""
    case BeginRefresh => s.observed.None?
    case ClearOne(p) => s.observed.Some? && p in s.observed.value
    case EndRefresh => s.observed.Some?
    case PromoteNow => s.observed.None? && s.dirty == map[]
  }

  function Cleared(dirty: Markers, p: string, seen: Marker): Markers {
    if p in dirty && dirty[p] == seen then dirty - {p} else dirty
  }

  function Next(s: State, e: Event): State
    requires Enabled(s, e)
  {
    match e
    case Mark(p, m) => s.(dirty := s.dirty[p := m])
    case BeginRefresh => s.(observed := Some(s.dirty))
    case ClearOne(p) => s.(dirty := Cleared(s.dirty, p, s.observed.value[p]))
    case EndRefresh => s.(observed := None)
    case PromoteNow => s
  }

  /** The events do to the marker table what the catalog's transactions do, and promotion needs it empty. */
  lemma EventsAreTransactions(db: Db, s: State, e: Event, g: GenerationId, hash: string)
    requires Enabled(s, e) && db.dirty == s.dirty
    ensures e.Mark? ==> Exec(db, MarkDirty(e.partition, e.marker)) == Ok(db.(dirty := Next(s, e).dirty))
    ensures e.ClearOne? && e.partition != "" ==>
              Exec(db, ClearDirtyIfUnchanged(e.partition, s.observed.value[e.partition])) == Ok(db.(dirty := Next(s, e).dirty))
    ensures Exec(db, Promote(g, hash)).Ok? ==> s.dirty == map[]
  {
  }

  ghost predicate Path(ss: seq<State>, es: seq<Event>) {
    |ss| == |es| + 1 && forall i :: 0 <= i < |es| ==> Enabled(ss[i], es[i]) && ss[i + 1] == Next(ss[i], es[i])
  }

  /** The marker written is the very one that the refresh under way has seen. */
  predicate Repeats(s: State, e: Event) {
    e.Mark? && s.observed.Some? && e.partition in s.observed.value && s.observed.value[e.partition] == e.marker
  }

  /** A marker for the partition is there that the refresh under way, if any, will not clear. */
  predicate Fresh(s: State, p: string) {
    p in s.dirty && (s.observed.Some? && p in s.observed.value ==> s.observed.value[p] != s.dirty[p])
  }

  lemma StepKeepsFresh(s: State, e: Event, p: string)
    requires Enabled(s, e) && Fresh(s, p)
    requires !(e.Mark? && e.partition == p && Repeats(s, e))
    ensures Fresh(Next(s, e), p) || (e.BeginRefresh? && Next(s, e).observed.value[p] == s.dirty[p])
  {
  }

  /**
   A marker that differs from what the refresh under way has seen blocks every promotion until a later
   refresh has seen it, or the marker that replaced it.
   */
  lemma {:induction false} MarkerIsSeenBeforePromotion(ss: seq<State>, es: seq<Event>, i: nat, j: nat) returns (k: nat)
    requires Path(ss, es) && i < j < |es| && es[i].Mark? && !Repeats(ss[i], es[i]) && es[j].PromoteNow?
    requires forall n :: i < n < j && es[n].Mark? && es[n].partition == es[i].partition ==> !Repeats(ss[n], es[n])
    ensures i < k < j && es[k].BeginRefresh? && es[i].partition in ss[k + 1].observed.value
  {
    var p := es[i].partition;
    assert ss[i + 1] == Next(ss[i], es[i]);
    k := i + 1;
    while k < j && !es[k].BeginRefresh?
      invariant i < k <= j && Fresh(ss[k], p)
    {
      assert Enabled(ss[k], es[k]) && ss[k + 1] == Next(ss[k], es[k]);
      StepKeepsFresh(ss[k], es[k], p);
      k := k + 1;
    }
    assert Enabled(ss[j], es[j]);
    assert ss[k + 1] == Next(ss[k], es[k]);
  }

  /** Until then the marker, or one that replaced it, stays in the table. */
  lemma {:induction false} MarkerSurvives(ss: seq<State>, es: seq<Event>, i: nat, j: nat)
    requires Path(ss, es) && i < j <= |es| && es[i].Mark? && !Repeats(ss[i], es[i])
    requires forall n :: i < n < j && es[n].Mark? && es[n].partition == es[i].partition ==> !Repeats(ss[n], es[n])
    requires forall n :: i < n < j ==> !es[n].BeginRefresh?
    ensures es[i].partition in ss[j].dirty
    ensures (forall n :: i < n < j ==> !(es[n].Mark? && es[n].partition == es[i].partition)) ==>
              ss[j].dirty[es[i].partition] == es[i].marker
  {
    var p := es[i].partition;
    assert ss[i + 1] == Next(ss[i], es[i]);
    var k := i + 1;
    while k < j
      invariant i < k <= j && Fresh(ss[k], p)
      invariant (forall n :: i < n < k ==> !(es[n].Mark? && es[n].partition == p)) ==> ss[k].dirty[p] == es[i].marker
    {
      assert Enabled(ss[k], es[k]) && ss[k + 1] == Next(ss[k], es[k]);
      StepKeepsFresh(ss[k], es[k], p);
      k := k + 1;
    }
  }

  /** The one exception: a marker equal in every field, also its time, to the one seen is cleared with it. */
  lemma EqualMarkerIsLost(s: State, p: string)
    requires s.observed.None? && p in s.dirty && p != "" && s.dirty[p].reason != ""
    ensures var s1 := Next(s, BeginRefresh);
            var s2 := Next(s1, Mark(p, s.dirty[p]));
            Repeats(s1, Mark(p, s.dirty[p])) && Enabled(s2, ClearOne(p)) && p !in Next(s2, ClearOne(p)).dirty
  {
  }
}
