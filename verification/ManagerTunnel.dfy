/**
 The manager tunnel: restarts, watchers, retries and shutdown race for one runtime. A generation
 counter, raised by every restart and by shutdown, tells latecomers that they are out of date.
 */
module ManagerTunnel {
  import opened Common

  type Runtime = nat

  datatype Status = Disabled | NotConfigured | NeedsCredential | Starting | Ready | Degraded | Stopped

  /** The fields under the tunnel's lock. */
  datatype Tunnel = Tunnel(runtime: Option<Runtime>, generation: nat, status: Status)

  function RestartSection(t: Tunnel): Tunnel {
    Tunnel(None, t.generation + 1, Starting)
  }

  function InstallSection(t: Tunnel, generation: nat, started: Runtime, cancelled: bool): (Tunnel, bool) {
    if generation != t.generation || cancelled then (t, false) else (Tunnel(Some(started), t.generation, Ready), true)
  }

  function StatusSection(t: Tunnel, generation: nat, status: Status): Tunnel {
    if generation == t.generation then t.(status := status) else t
  }

  function WatchSection(t: Tunnel, generation: nat, watched: Runtime): (Tunnel, bool) {
    if generation != t.generation || t.runtime != Some(watched) then (t, false)
    else (t.(runtime := None, status := Degraded), true)
  }

  function CloseSection(t: Tunnel): Tunnel {
    Tunnel(None, t.generation + 1, Stopped)
  }

  /** What each section reports: a restart begins, a start ends or fails, a disconnect degrades, shutdown stops. */
  lemma StatusesMean(t: Tunnel, generation: nat, r: Runtime, status: Status, cancelled: bool)
    ensures RestartSection(t).status == Starting && CloseSection(t).status == Stopped
    ensures InstallSection(t, generation, r, cancelled).1 <==> generation == t.generation && !cancelled
    ensures InstallSection(t, generation, r, cancelled).1 ==> InstallSection(t, generation, r, cancelled).0 == t.(runtime := Some(r), status := Ready)
    ensures StatusSection(t, generation, status) == t.(status := if generation == t.generation then status else t.status)
    ensures WatchSection(t, generation, r).1 <==> generation == t.generation && t.runtime == Some(r)
    ensures WatchSection(t, generation, r).1 ==> WatchSection(t, generation, r).0.status == Degraded
  {
  }

  class ProductRuntime {
    var mgrRuntime: Option<Runtime>
    var mgrGen: nat
    var mgrStatus: Status

    constructor ()
      ensures View() == Tunnel(None, 0, Disabled)
    {
      mgrRuntime, mgrGen, mgrStatus := None, 0, Disabled;
    }

    function View(): Tunnel
      reads this
    {
      Tunnel(mgrRuntime, mgrGen, mgrStatus)
    }

    method BeginRestart() returns (replaced: Option<Runtime>, generation: nat)
      modifies this
      ensures View() == RestartSection(old(View())) && replaced == old(mgrRuntime) && generation == mgrGen
    {
      replaced := mgrRuntime;
      mgrRuntime := None;
      mgrGen := mgrGen + 1;
      generation := mgrGen;
      mgrStatus := Starting;
    }

    method Install(generation: nat, started: Runtime, cancelled: bool) returns (installed: bool)
      modifies this
      ensures (View(), installed) == InstallSection(old(View()), generation, started, cancelled)
    {
      if generation != mgrGen || cancelled {
        return false;
      }
      mgrRuntime := Some(started);
      mgrStatus := Ready;
      installed := true;
    }

    method SetStatus(generation: nat, status: Status)
      modifies this
      ensures View() == StatusSection(old(View()), generation, status)
    {
      if generation == mgrGen {
        mgrStatus := status;
      }
    }

    method Disconnected(generation: nat, watched: Runtime) returns (dropped: bool)
      modifies this
      ensures (View(), dropped) == WatchSection(old(View()), generation, watched)
    {
      if generation != mgrGen || mgrRuntime != Some(watched) {
        return false;
      }
      mgrRuntime := None;
      mgrStatus := Degraded;
      dropped := true;
    }

    method Close() returns (taken: Option<Runtime>)
      modifies this
      ensures View() == CloseSection(old(View())) && taken == old(mgrRuntime)
    {
      taken := mgrRuntime;
      mgrRuntime := None;
      mgrGen := mgrGen + 1;
      mgrStatus := Stopped;
    }
  }

  // ---------------------------------------------------------------------------------------------
  // Every interleaving
  // ---------------------------------------------------------------------------------------------

  /** What has become of a runtime that was started. */
  datatype Fate =
    | Held(generation: nat)       // its starter has not installed it yet
    | Installed(generation: nat)  // by the starter of this generation
    | TakenByRestart
    | TakenByClose
    | DroppedByWatcher
    | RejectedByStarter

  predicate Terminal(f: Fate) {
    !f.Held? && !f.Installed?
  }

  /** Fates whose owner calls Stop on the runtime. */
  predicate StoppedIn(f: Fate) {
    f.TakenByRestart? || f.TakenByClose? || f.RejectedByStarter?
  }

  datatype World = World(
    tunnel: Tunnel,
    entering: nat,                     // restart calls past their context check
    starting: set<nat>,                // generations whose starter has no runtime yet
    fates: map<Runtime, Fate>,
    watchers: set<(nat, Runtime)>,
    retries: set<nat>,
    stops: multiset<Runtime>,
    cancelled: bool,
    closedAfterCancel: bool)

  const Initial := World(Tunnel(None, 0, Disabled), 0, {}, map[], {}, {}, multiset{}, false, false)

  datatype Event =
    | CallRestart
    | EnterRestart
    | StartOk(generation: nat, runtime: Runtime)
    | StartEnds(generation: nat, status: Status, retry: bool)
    | TryInstall(runtime: Runtime)
    | WatcherRuns(generation: nat, runtime: Runtime)
    | WatcherReturns(generation: nat, runtime: Runtime)
    | RetryFires(generation: nat)
    | RetryReturns(generation: nat)
    | Cancel
    | CloseNow

  predicate Enabled(w: World, e: Event) {
    match e
    case CallRestart => !w.cancelled
    case EnterRestart => w.entering > 0
    case StartOk(g, r) => g in w.starting && r !in w.fates
    case StartEnds(g, status, retry) => g in w.starting && !status.Ready?
    case TryInstall(r) => r in w.fates && w.fates[r].Held?
    case WatcherRuns(g, r) => (g, r) in w.watchers
    case WatcherReturns(g, r) => (g, r) in w.watchers && w.cancelled
    case RetryFires(g) => g in w.retries
    case RetryReturns(g) => g in w.retries && w.cancelled
    case Cancel => true
    case CloseNow => true
  }

  /** The installed runtime, if any, leaves the tunnel and is stopped by whoever took it. */
  function Taken(w: World, fate: Fate): World {
    match w.tunnel.runtime
    case None => w
    case Some(r) => w.(fates := w.fates[r := fate], stops := w.stops + multiset{r})
  }

  function InstallStep(w: World, r: Runtime): World
    requires r in w.fates && w.fates[r].Held?
  {
    var g := w.fates[r].generation;
    var (t, installed) := InstallSection(w.tunnel, g, r, w.cancelled);
    if installed then w.(tunnel := t, fates := w.fates[r := Installed(g)], watchers := w.watchers + {(g, r)})
    else w.(fates := w.fates[r := RejectedByStarter], stops := w.stops + multiset{r})
  }

  function WatchStep(w: World, g: nat, r: Runtime): World {
    var (t, dropped) := WatchSection(w.tunnel, g, r);
    var u := w.(watchers := w.watchers - {(g, r)});
    if dropped then u.(tunnel := t, fates := w.fates[r := DroppedByWatcher], retries := w.retries + {g}) else u
  }

  function Next(w: World, e: Event): World
    requires Enabled(w, e)
  {
    match e
    case CallRestart => w.(entering := w.entering + 1)
    case EnterRestart =>
      Taken(w, TakenByRestart).(tunnel := RestartSection(w.tunnel), entering := w.entering - 1,
                                starting := w.starting + {w.tunnel.generation + 1})
    case StartOk(g, r) => w.(starting := w.starting - {g}, fates := w.fates[r := Held(g)])
    case StartEnds(g, status, retry) =>
      w.(tunnel := StatusSection(w.tunnel, g, status), starting := w.starting - {g},
         retries := w.retries + if retry then {g} else {})
    case TryInstall(r) => InstallStep(w, r)
    case WatcherRuns(g, r) => WatchStep(w, g, r)
    case WatcherReturns(g, r) => w.(watchers := w.watchers - {(g, r)})
    case RetryFires(g) =>
      var valid := g == w.tunnel.generation && w.tunnel.runtime.None? && !w.cancelled;
      w.(retries := w.retries - {g}, entering := w.entering + if valid then 1 else 0)
    case RetryReturns(g) => w.(retries := w.retries - {g})
    case Cancel => w.(cancelled := true)
    case CloseNow =>
      Taken(w, TakenByClose).(tunnel := CloseSection(w.tunnel), closedAfterCancel := w.closedAfterCancel || w.cancelled)
  }

  /** Exactly the installed runtime has the fate of being installed. */
  ghost predicate OneInstalled(t: Tunnel, fates: map<Runtime, Fate>) {
    && (t.runtime.Some? ==> t.runtime.value in fates)
    && (forall r :: r in fates ==> (fates[r].Installed? <==> t.runtime == Some(r)))
  }

  /** Starters and held runtimes belong to generations that were handed out once. */
  ghost predicate StartersCurrent(w: World) {
    && (forall g :: g in w.starting ==> g <= w.tunnel.generation)
    && (forall r :: r in w.fates && w.fates[r].Held? ==>
          w.fates[r].generation <= w.tunnel.generation && w.fates[r].generation !in w.starting)
    && (forall r, s :: r in w.fates && s in w.fates && w.fates[r].Held? && w.fates[r] == w.fates[s] ==> r == s)
  }

  /** The installed runtime is of the current generation, whose starter is through, and is being watched. */
  ghost predicate InstalledIsCurrent(w: World) {
    w.tunnel.runtime.Some? && w.tunnel.runtime.value in w.fates ==>
      && w.fates[w.tunnel.runtime.value] == Installed(w.tunnel.generation)
      && (w.cancelled || (w.tunnel.generation, w.tunnel.runtime.value) in w.watchers)
      && w.tunnel.generation !in w.starting
      && (forall r :: r in w.fates && w.fates[r].Held? ==> w.fates[r].generation != w.tunnel.generation)
  }

  ghost predicate StopsMatch(fates: map<Runtime, Fate>, stops: multiset<Runtime>) {
    && (forall r :: r in stops ==> r in fates)
    && (forall r :: r in fates ==> stops[r] == if StoppedIn(fates[r]) then 1 else 0)
  }

  ghost predicate Inv(w: World) {
    && OneInstalled(w.tunnel, w.fates)
    && StartersCurrent(w)
    && InstalledIsCurrent(w)
    && StopsMatch(w.fates, w.stops)
    && (w.tunnel.status.Ready? <==> w.tunnel.runtime.Some?)
    && (w.closedAfterCancel ==> w.cancelled && w.tunnel.runtime.None?)
  }

  /** A retry leads to a restart exactly if nothing was started or stopped since, nothing is installed and the context is alive. */
  lemma RetryMeans(w: World, g: nat)
    requires g in w.retries
    ensures var u := Next(w, RetryFires(g));
            && (u.entering == w.entering + 1 <==> g == w.tunnel.generation && w.tunnel.runtime.None? && !w.cancelled)
            && (u.entering == w.entering || u.entering == w.entering + 1) && g !in u.retries && u.tunnel == w.tunnel
  {
  }

  lemma RestartKeeps(w: World)
    requires Inv(w) && w.entering > 0
    ensures Inv(Next(w, EnterRestart))
  {
  }

  lemma CloseKeeps(w: World)
    requires Inv(w)
    ensures Inv(Next(w, CloseNow))
  {
  }

  lemma StartKeeps(w: World, e: Event)
    requires Inv(w) && Enabled(w, e) && (e.StartOk? || e.StartEnds?)
    ensures Inv(Next(w, e))
  {
  }

  lemma InstallKeeps(w: World, r: Runtime)
    requires Inv(w) && r in w.fates && w.fates[r].Held?
    ensures Inv(InstallStep(w, r))
  {
    hide StopsMatch;
    StopsKept(w.fates, w.stops, r);
  }

  /** Installing or rejecting a runtime keeps the count of stops in step with the fates. */
  lemma StopsKept(fates: map<Runtime, Fate>, stops: multiset<Runtime>, r: Runtime)
    requires StopsMatch(fates, stops) && r in fates && fates[r].Held?
    ensures StopsMatch(fates[r := Installed(fates[r].generation)], stops)
    ensures StopsMatch(fates[r := RejectedByStarter], stops + multiset{r})
  {
  }

  lemma WatchKeeps(w: World, g: nat, r: Runtime)
    requires Inv(w)
    ensures Inv(WatchStep(w, g, r))
  {
  }

  lemma StepKeeps(w: World, e: Event)
    requires Inv(w) && Enabled(w, e)
    ensures Inv(Next(w, e))
  {
    match e
    case EnterRestart => RestartKeeps(w);
    case CloseNow => CloseKeeps(w);
    case StartOk(_, _) => StartKeeps(w, e);
    case StartEnds(_, _, _) => StartKeeps(w, e);
    case TryInstall(r) => InstallKeeps(w, r);
    case WatcherRuns(g, r) => WatchKeeps(w, g, r);
    case _ =>
  }

  /** A runtime that has met its end keeps it, and one that was started is never forgotten. */
  lemma FatesAreFinal(w: World, e: Event, r: Runtime)
    requires Inv(w) && Enabled(w, e) && r in w.fates
    ensures r in Next(w, e).fates
    ensures Terminal(w.fates[r]) ==> Next(w, e).fates[r] == w.fates[r]
    ensures w.fates[r].Installed? ==> !Next(w, e).fates[r].Held? && !Next(w, e).fates[r].RejectedByStarter?
    ensures w.fates[r].Held? ==> Next(w, e).fates[r] in {w.fates[r], Installed(w.fates[r].generation), RejectedByStarter}
  {
  }

  ghost predicate Path(ws: seq<World>, es: seq<Event>) {
    |ws| == |es| + 1 && forall i :: 0 <= i < |es| ==> Enabled(ws[i], es[i]) && ws[i + 1] == Next(ws[i], es[i])
  }

  /** One event, with the object whose fields are the tunnel. */
  method Perform(p: ProductRuntime, w: World, e: Event)
    requires Enabled(w, e) && p.View() == w.tunnel
    modifies p
    ensures p.View() == Next(w, e).tunnel
  {
    match e
    case EnterRestart => var replaced, generation := p.BeginRestart();
    case StartEnds(g, status, _) => p.SetStatus(g, status);
    case TryInstall(r) => var installed := p.Install(w.fates[r].generation, r, w.cancelled);
    case WatcherRuns(g, r) => var dropped := p.Disconnected(g, r);
    case CloseNow => var taken := p.Close();
    case _ =>
  }

  /** The object goes through every run of the model: what is proved of the runs holds of its fields. */
  method Follow(ws: seq<World>, es: seq<Event>) returns (p: ProductRuntime)
    requires Path(ws, es) && ws[0] == Initial
    ensures fresh(p) && p.View() == ws[|es|].tunnel
  {
    hide Next;
    p := new ProductRuntime();
    for i := 0 to |es|
      invariant fresh(p) && p.View() == ws[i].tunnel
    {
      Perform(p, ws[i], es[i]);
    }
  }

  lemma {:induction false} RunKeeps(ws: seq<World>, es: seq<Event>, i: nat)
    requires Path(ws, es) && ws[0] == Initial && i < |ws|
    ensures Inv(ws[i])
  {
    if i > 0 {
      RunKeeps(ws, es, i - 1);
      StepKeeps(ws[i - 1], es[i - 1]);
    }
  }

  /**
   In every run each started runtime is held by its starter, installed, or at its end, which it reaches
   once; it is stopped once exactly if a restart, shutdown or its own starter took it.
   */
  lemma EveryRuntimeIsAccountedFor(ws: seq<World>, es: seq<Event>, i: nat, j: nat, r: Runtime)
    requires Path(ws, es) && ws[0] == Initial && i <= j < |ws| && r in ws[i].fates
    ensures r in ws[j].fates && ws[j].stops[r] == if StoppedIn(ws[j].fates[r]) then 1 else 0
    ensures Terminal(ws[i].fates[r]) ==> ws[j].fates[r] == ws[i].fates[r]
    ensures ws[j].fates[r].Installed? <==> ws[j].tunnel.runtime == Some(r)
    decreases j - i
  {
    hide Next, Inv;
    InvParts(ws, es, j);
    if i < j {
      EveryRuntimeIsAccountedFor(ws, es, i, j - 1, r);
      RunKeeps(ws, es, j - 1);
      FatesAreFinal(ws[j - 1], es[j - 1], r);
    }
  }

  lemma InvParts(ws: seq<World>, es: seq<Event>, j: nat)
    requires Path(ws, es) && ws[0] == Initial && j < |ws|
    ensures OneInstalled(ws[j].tunnel, ws[j].fates) && StopsMatch(ws[j].fates, ws[j].stops)
  {
    RunKeeps(ws, es, j);
  }

  /** The status says ready exactly while a runtime is installed; after cancellation and shutdown none is. */
  lemma NothingSurvivesShutdown(ws: seq<World>, es: seq<Event>, i: nat)
    requires Path(ws, es) && ws[0] == Initial && i < |ws|
    ensures ws[i].tunnel.status.Ready? <==> ws[i].tunnel.runtime.Some?
    ensures ws[i].closedAfterCancel ==> ws[i].tunnel.runtime.None?
  {
    RunKeeps(ws, es, i);
  }

  /** A runtime gets into the tunnel by an installation only, and stays there only within one generation. */
  lemma InstalledBefore(w: World, e: Event, r: Runtime)
    requires Inv(w) && Enabled(w, e) && Next(w, e).tunnel.runtime == Some(r)
    ensures Next(w, e).tunnel.generation == w.tunnel.generation
    ensures w.tunnel.runtime == Some(r) || (e == TryInstall(r) && w.fates[r] == Held(w.tunnel.generation) && !w.cancelled)
  {
  }

  /** A runtime that its starter holds was started in the generation on record. */
  lemma {:induction false} HeldWasStarted(ws: seq<World>, es: seq<Event>, i: nat, r: Runtime, g: nat) returns (h: nat)
    requires Path(ws, es) && ws[0] == Initial && i < |ws| && r in ws[i].fates && ws[i].fates[r] == Held(g)
    ensures h < i && es[h] == StartOk(g, r)
    decreases i
  {
    assert i > 0;
    if es[i - 1] == StartOk(g, r) {
      h := i - 1;
    } else {
      HeldStays(ws[i - 1], es[i - 1], r);
      h := HeldWasStarted(ws, es, i - 1, r, g);
    }
  }

  lemma HeldStays(w: World, e: Event, r: Runtime)
    requires Enabled(w, e) && r in Next(w, e).fates && Next(w, e).fates[r].Held?
    ensures e == StartOk(Next(w, e).fates[r].generation, r) || (r in w.fates && w.fates[r] == Next(w, e).fates[r])
  {
  }

  /** Nothing took the tunnel from one moment to another. */
  predicate Undisturbed(es: seq<Event>, from: nat, to: nat) {
    forall k :: from <= k < to && k < |es| ==> !es[k].EnterRestart? && !es[k].CloseNow?
  }

  /**
   In every state of every run, the installed runtime belongs to the current generation: it was started
   in it, then installed in it before any cancellation, and since then neither a restart nor shutdown came.
   */
  lemma {:induction false} InstalledBelongsToGeneration(ws: seq<World>, es: seq<Event>, j: nat, r: Runtime)
      returns (h: nat, i: nat)
    requires Path(ws, es) && ws[0] == Initial && j < |ws| && ws[j].tunnel.runtime == Some(r)
    ensures h < i < j && es[h] == StartOk(ws[j].tunnel.generation, r) && es[i] == TryInstall(r)
    ensures !ws[i].cancelled && Undisturbed(es, i, j)
    ensures forall k :: i <= k <= j ==> ws[k].tunnel.generation == ws[j].tunnel.generation
    ensures forall k :: i < k <= j ==> ws[k].tunnel.runtime == Some(r)
    ensures ws[j].cancelled || (ws[j].tunnel.generation, r) in ws[j].watchers
    decreases j
  {
    hide Inv, Next;
    InstalledIsWatched(ws, es, j, r);
    assert j > 0;
    RunKeeps(ws, es, j - 1);
    InstalledBefore(ws[j - 1], es[j - 1], r);
    NotDisturbed(ws[j - 1], es[j - 1]);
    if ws[j - 1].tunnel.runtime == Some(r) {
      h, i := InstalledBelongsToGeneration(ws, es, j - 1, r);
    } else {
      i := j - 1;
      h := HeldWasStarted(ws, es, i, r, ws[i].tunnel.generation);
    }
  }

  lemma InstalledIsWatched(ws: seq<World>, es: seq<Event>, j: nat, r: Runtime)
    requires Path(ws, es) && ws[0] == Initial && j < |ws| && ws[j].tunnel.runtime == Some(r)
    ensures ws[j].cancelled || (ws[j].tunnel.generation, r) in ws[j].watchers
  {
    RunKeeps(ws, es, j);
  }

  lemma NotDisturbed(w: World, e: Event)
    requires Enabled(w, e) && Next(w, e).tunnel.runtime.Some?
    ensures !e.EnterRestart? && !e.CloseNow?
  {
  }

  /** Shutdown before cancellation would not end it: a restart that comes between leaves a runtime installed. */
  lemma CloseBeforeCancelIsNotEnough() returns (ws: seq<World>)
    ensures Path(ws, [CloseNow, CallRestart, EnterRestart, StartOk(2, 7), TryInstall(7), Cancel]) && ws[0] == Initial
    ensures ws[6].cancelled && ws[6].tunnel.runtime == Some(7)
  {
    var w1 := Initial.(tunnel := Tunnel(None, 1, Stopped));
    var w2 := w1.(entering := 1);
    var w3 := w1.(tunnel := Tunnel(None, 2, Starting), starting := {2});
    var w4 := w3.(starting := {}, fates := map[7 := Held(2)]);
    var w5 := w4.(tunnel := Tunnel(Some(7), 2, Ready), fates := map[7 := Installed(2)], watchers := {(2, 7)});
    assert w3 == Next(w2, EnterRestart);
    assert w4 == Next(w3, StartOk(2, 7));
    assert w5 == Next(w4, TryInstall(7));
    ws := [Initial, w1, w2, w3, w4, w5, w5.(cancelled := true)];
  }
}
