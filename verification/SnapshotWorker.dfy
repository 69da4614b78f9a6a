/**
 The desktop's routing snapshot: requests set flags under a lock and wake one worker through a channel
 with room for one token; the worker loads until no request came in meanwhile.
 */
module SnapshotWorker {
  import opened Common

  /** The fields under the lock that the protocol uses. */
  datatype Flags = Flags(loading: bool, dirty: bool, loaded: bool, failed: bool, revision: nat)

  /** A request to refresh; the result says whether the caller must wake the worker. */
  function RefreshSection(f: Flags): (Flags, bool) {
    if f.loading then (f.(dirty := true), false) else (f.(loading := true), true)
  }

  /** A request for a snapshot that need not be newer than the one there is; `due` is that it is stale and not just tried. */
  function EnsureSection(f: Flags, due: bool): (Flags, bool) {
    if f.loading || !due then (f, false) else (f.(loading := true), true)
  }

  /** What the worker does after a load; the result says whether it loads again. */
  function FinishSection(f: Flags, ok: bool): (Flags, bool) {
    var g := if ok then f.(loaded := true, failed := false, revision := f.revision + 1) else f.(failed := true);
    if f.dirty then (g.(dirty := false), true) else (g.(loading := false), false)
  }

  /** Asking for a snapshot begins a load exactly if one is due and none is under way, and never has a load repeated. */
  lemma EnsureMeans(f: Flags, due: bool)
    ensures var (g, wake) := EnsureSection(f, due);
            && (wake <==> due && !f.loading) && (g.loading <==> f.loading || due)
            && g.dirty == f.dirty && g.loaded == f.loaded && g.failed == f.failed && g.revision == f.revision
  {
  }

  /** A load that succeeds gives a new revision and clears the failure; one that fails leaves the last snapshot in place. */
  lemma FinishMeans(f: Flags, ok: bool)
    ensures var (g, again) := FinishSection(f, ok);
            && (again <==> f.dirty) && !g.dirty && (g.loading <==> (f.loading && again))
            && g.revision == f.revision + (if ok then 1 else 0)
            && (g.loaded <==> f.loaded || ok) && (g.failed <==> !ok)
  {
  }

  class AsyncState {
    var routingLoading: bool
    var routingDirty: bool
    var routingLoaded: bool
    var routingFailed: bool
    var revision: nat

    constructor ()
      ensures View() == Flags(false, false, false, false, 0)
    {
      routingLoading, routingDirty, routingLoaded, routingFailed, revision := false, false, false, false, 0;
    }

    function View(): Flags
      reads this
    {
      Flags(routingLoading, routingDirty, routingLoaded, routingFailed, revision)
    }

    method Refresh() returns (wake: bool)
      modifies this
      ensures (View(), wake) == RefreshSection(old(View()))
    {
      if routingLoading {
        routingDirty := true;
        return false;
      }
      routingLoading := true;
      wake := true;
    }

    method Ensure(due: bool) returns (wake: bool)
      modifies this
      ensures (View(), wake) == EnsureSection(old(View()), due)
    {
      if !due || routingLoading {
        return false;
      }
      routingLoading := true;
      wake := true;
    }

    method Finish(ok: bool) returns (rerun: bool)
      modifies this
      ensures (View(), rerun) == FinishSection(old(View()), ok)
    {
      if ok {
        routingLoaded, routingFailed, revision := true, false, revision + 1;
      } else {
        routingFailed := true;
      }
      rerun := routingDirty;
      routingDirty := false;
      if !rerun {
        routingLoading := false;
      }
    }
  }

  // ---------------------------------------------------------------------------------------------
  // Every interleaving
  // ---------------------------------------------------------------------------------------------

  /** The worker waits for a token, or is inside a load that began at the given time, or has gone. */
  datatype Worker = Waiting | Loading(began: nat) | Gone

  datatype World = World(
    flags: Flags,
    waking: nat,                  // requests that are about to put a token into the channel
    tokens: nat,                  // tokens in the channel, which has room for one
    worker: Worker,
    clock: nat,                   // counts events
    requested: Option<nat>,       // when the latest refresh was requested
    finished: Option<nat>,        // when the last finished load began
    full: bool)                   // a sender found the channel full

  const Initial := World(Flags(false, false, false, false, 0), 0, 0, Waiting, 0, None, None, false)

  datatype Event = RequestRefresh | RequestSnapshot(due: bool) | Send | Receive | Finish(ok: bool) | Exit

  predicate Enabled(w: World, e: Event) {
    match e
    case RequestRefresh => true
    case RequestSnapshot(_) => true
    case Send => w.waking > 0
    case Receive => w.worker.Waiting? && w.tokens > 0
    case Finish(_) => w.worker.Loading?
    case Exit => w.worker.Waiting?
  }

  function Step(w: World, e: Event): World
    requires Enabled(w, e)
  {
    match e
    case RequestRefresh =>
      var (f, wake) := RefreshSection(w.flags);
      w.(flags := f, waking := w.waking + if wake then 1 else 0, requested := Some(w.clock))
    case RequestSnapshot(due) =>
      var (f, wake) := EnsureSection(w.flags, due);
      w.(flags := f, waking := w.waking + if wake then 1 else 0)
    case Send =>
      if w.tokens < 1 then w.(waking := w.waking - 1, tokens := w.tokens + 1) else w.(waking := w.waking - 1, full := true)
    case Receive => w.(tokens := w.tokens - 1, worker := Loading(w.clock))
    case Finish(ok) =>
      var (f, rerun) := FinishSection(w.flags, ok);
      w.(flags := f, worker := if rerun then Loading(w.clock) else Waiting, finished := Some(w.worker.began))
    case Exit => w.(worker := Gone)
  }

  function Next(w: World, e: Event): World
    requires Enabled(w, e)
  {
    Step(w, e).(clock := w.clock + 1)
  }

  /** A load that begins at some time sees every request made before. */
  predicate Sees(began: nat, requested: Option<nat>) {
    requested.Some? ==> requested.value < began
  }

  predicate Inv(w: World) {
    && (w.flags.dirty ==> w.flags.loading)
    && w.waking + w.tokens + (if w.worker.Loading? then 1 else 0) == (if w.flags.loading then 1 else 0)
    && !w.full
    && (w.requested.Some? ==> w.requested.value < w.clock)
    && (w.worker.Loading? ==> w.worker.began < w.clock && (w.flags.dirty || Sees(w.worker.began, w.requested)))
    && (!w.flags.loading && w.requested.Some? ==> w.finished.Some? && Sees(w.finished.value, w.requested))
  }

  lemma StepKeeps(w: World, e: Event)
    requires Inv(w) && Enabled(w, e)
    ensures Inv(Next(w, e))
  {
  }

  ghost predicate Path(ws: seq<World>, es: seq<Event>) {
    |ws| == |es| + 1 && forall i :: 0 <= i < |es| ==> Enabled(ws[i], es[i]) && ws[i + 1] == Next(ws[i], es[i])
  }

  /** One event, with the object whose fields are the flags. */
  method Perform(state: AsyncState, w: World, e: Event)
    requires Enabled(w, e) && state.View() == w.flags
    modifies state
    ensures state.View() == Next(w, e).flags
  {
    match e
    case RequestRefresh => var wake := state.Refresh();
    case RequestSnapshot(due) => var wake := state.Ensure(due);
    case Finish(ok) => var rerun := state.Finish(ok);
    case _ =>
  }

  /** The object goes through every run of the model: what is proved of the runs holds of its fields. */
  method Follow(ws: seq<World>, es: seq<Event>) returns (state: AsyncState)
    requires Path(ws, es) && ws[0] == Initial
    ensures fresh(state) && state.View() == ws[|es|].flags
  {
    hide Next;
    state := new AsyncState();
    for i := 0 to |es|
      invariant fresh(state) && state.View() == ws[i].flags
    {
      Perform(state, ws[i], es[i]);
    }
  }

  lemma {:induction false} RunKeeps(ws: seq<World>, es: seq<Event>, i: nat)
    requires Path(ws, es) && ws[0] == Initial && i < |ws|
    ensures Inv(ws[i])
  {
    if i > 0 {
      RunKeeps(ws, es, i - 1);
      StepKeeps(ws[i - 1], es[i - 1]);
    }
  }

  /** A set dirty flag means a load is due, and no token is ever dropped because the channel is full. */
  lemma TokensAreNeverDropped(ws: seq<World>, es: seq<Event>, i: nat)
    requires Path(ws, es) && ws[0] == Initial && i < |ws|
    ensures ws[i].flags.dirty ==> ws[i].flags.loading
    ensures !ws[i].full && (i < |es| && es[i].Send? ==> ws[i].tokens == 0)
  {
    RunKeeps(ws, es, i);
  }

  /** Whenever nothing is loading, the last load that finished began after the latest refresh request. */
  lemma NoRefreshIsLost(ws: seq<World>, es: seq<Event>, i: nat)
    requires Path(ws, es) && ws[0] == Initial && i < |ws|
    requires !ws[i].flags.loading && ws[i].requested.Some?
    ensures ws[i].finished.Some? && ws[i].requested.value < ws[i].finished.value
  {
    RunKeeps(ws, es, i);
  }

  /** While a load is due and the worker is there, something can happen that brings it about. */
  lemma LoadsAreNotStuck(ws: seq<World>, es: seq<Event>, i: nat)
    requires Path(ws, es) && ws[0] == Initial && i < |ws| && ws[i].flags.loading && !ws[i].worker.Gone?
    ensures Enabled(ws[i], Send) || Enabled(ws[i], Receive) || Enabled(ws[i], Finish(true))
  {
    RunKeeps(ws, es, i);
  }
}
