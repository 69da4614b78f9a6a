/**
 Every interleaving of the operations on one routed server.

 The one-slot operation token of a server is held by at most one operation, so the position of the
 holder is a single `Phase`; everything else that happens (releases, session exits, marks of a
 configuration mutation, shutdown) is an event that may come between any two steps of the holder.
 Connecting, closing and process exit belong to the environment: a run may choose any outcome.
 */
module LifecycleMachine {
  import opened Common
  import opened ServerConfig
  import opened ServerSections

  type LeaseId = nat

  datatype Op =
    | OpAcquire
    | OpStart
    | OpStop
    | OpRestart
    | OpWatch(generation: nat, session: Session)
    | OpIdle(arming: Arming)
    | OpCommit(next: Option<ServerEntry>)
    | OpShutdown

  /** Where the holder of the operation token stands. */
  datatype Phase =
    | Free                                  // nobody holds the token
    | Ready(op: Op)                         // token taken, first section still to run
    | Closing(op: Op, session: Session)     // about to close a session it removed
    | Connecting(op: Op, late: bool)        // inside connect; late: the service was cancelled before
    | Connected(op: Op, session: Session)   // connect returned, `closing` not read yet
    | Checked(op: Op, session: Session)     // about to publish the session
    | Rejecting(op: Op, session: Session)   // saw `closing`, about to close the new session
    | Settling(op: Op)                      // last section of a failed or closing operation
    | Granted(session: Session)             // Acquire is about to return a lease
    | Discarding(session: Session)          // about to close a session and then give up
    | Leaving                               // about to give the token back

  /** Progress of the configuration mutation that marked this server, if any. */
  datatype Mark = Unmarked | Preparing | Pending | Committing

  /** Leases by id: unreleased, released but not yet counted down, and the session each one was given. */
  datatype Leases = Leases(live: set<LeaseId>, releasing: set<LeaseId>, held: map<LeaseId, Session>)

  /** Sessions: all that connect returned, those that exited, how often each was closed, and those
      that a watcher has removed and is about to close. */
  datatype Sessions = Sessions(
    known: set<Session>, exited: set<Session>, closes: multiset<Session>, watchClosing: set<Session>)

  /** Every arming of the idle timer ever made, and those whose callback has begun. */
  datatype Timers = Timers(armings: set<Arming>, fired: set<Arming>)

  /** Service shutdown: flag set, context cancelled, this server's shutdown section done. */
  datatype Shutdown = Shutdown(closing: bool, cancelled: bool, shut: bool)

  /**
   What has gone wrong so far: the contract flag flipped between its two readings under a running
   session in use; a restart connected although the context had been cancelled before; the callback
   of the current arming was ignored; a restart took hold of a server that had been removed.
   */
  datatype History = History(flipped: bool, rude: bool, lost: bool, revived: bool)

  /**
   What no code reads: the entry that each session was connected with, the entry that the token holder
   read in its first section, and the time of the last use.
   */
  datatype Record = Record(entries: map<Session, ServerEntry>, read: ServerEntry, lastUse: int)

  datatype World = World(
    defaultIdle: int, now: int, server: Server, phase: Phase, mark: Mark,
    leases: Leases, sessions: Sessions, timers: Timers, shutdown: Shutdown, history: History, record: Record)

  function Init(entry: ServerEntry, defaultIdle: int, now: int): World {
    World(defaultIdle, now, NewServer(entry), Free, Unmarked, Leases({}, {}, map[]),
          Sessions({}, {}, multiset{}, {}), Timers({}, {}), Shutdown(false, false, false),
          History(false, false, false, false), Record(map[], entry, now))
  }

  datatype Event =
    | Take(op: Op)
    | Enter(changed1: bool, changed2: bool)
    | CloseOld(ok: bool)
    | ConnectOk(session: Session)
    | ConnectFail
    | ReadClosing
    | Publish
    | Settle(touch: bool)
    | Grant(lease: LeaseId)
    | Unlock
    | ReleaseFlag(lease: LeaseId)
    | ReleaseCount(lease: LeaseId)
    | WatchClose(session: Session)
    | SetMark
    | SetPending
    | SetCommitting
    | ClearMark
    | ReplaceEntry(entry: ServerEntry)
    | SessionExit(session: Session)
    | Touch
    | Tick(time: int)
    | BeginClosing
    | Cancel

  predicate InstalledExited(w: World) {
    w.server.session.Some? && w.server.session.value in w.sessions.exited
  }

  /** Operations whose whole middle part runs with `runtimeChanging` set. */
  predicate Connects(op: Op) {
    op.OpStart? || op.OpRestart?
  }

  predicate MayTake(w: World, op: Op) {
    match op
    case OpWatch(_, s) => s in w.sessions.exited
    case OpIdle(a) => a in w.timers.armings && a !in w.timers.fired
    case OpCommit(_) => w.mark.Committing?
    case OpShutdown => w.shutdown.cancelled
    case _ => true
  }

  predicate Enabled(w: World, e: Event) {
    match e
    case Take(op) => w.phase.Free? && MayTake(w, op)
    case Enter(changed1, changed2) => w.phase.Ready? && (changed1 ==> changed2)
    case CloseOld(_) => w.phase.Closing? || w.phase.Rejecting? || w.phase.Discarding?
    case ConnectOk(s) => w.phase.Connecting? && s !in w.sessions.known
    case ConnectFail => w.phase.Connecting?
    case ReadClosing => w.phase.Connected?
    case Publish => w.phase.Checked?
    case Settle(_) => w.phase.Settling?
    case Grant(l) => w.phase.Granted? && l !in w.leases.held
    case Unlock => w.phase.Leaving?
    case ReleaseFlag(_) => true
    case ReleaseCount(l) => l in w.leases.releasing
    case WatchClose(s) => s in w.sessions.watchClosing
    case SetMark => w.mark.Unmarked? && PrepareMark(w.server).1
    case SetPending => w.mark.Preparing?
    case SetCommitting => w.mark.Pending?
    case ClearMark => w.mark.Preparing? || w.mark.Pending?
    case ReplaceEntry(entry) => entry.id == w.server.entry.id && !RuntimeAffectingChange(w.server.entry, entry)
    case SessionExit(s) => s in w.sessions.known
    case Touch => true
    case Tick(t) => w.now <= t
    case BeginClosing => true
    case Cancel => w.shutdown.closing
  }

  /** The world after a section turned the server into `v`, recording the arming it made, if any. */
  function Sectioned(w: World, v: Server, phase: Phase): World {
    var made := if v.idleTimer.Some? then {v.idleTimer.value} else {};
    w.(server := v, phase := phase, timers := w.timers.(armings := w.timers.armings + made))
  }

  function CloseSession(w: World, s: Session, phase: Phase): World {
    w.(sessions := w.sessions.(closes := w.sessions.closes + multiset{s}), phase := phase)
  }

  /** A running session with uses was taken away: the contract flag flipped between its readings. */
  predicate TookUsed(w: World, u: Server) {
    w.server.active > 0 && w.server.session.Some? && u.session.None? && !InstalledExited(w)
  }

  function EnterAcquireStep(w: World, changed1: bool, changed2: bool): World {
    var (u, r) := AcquireEnter(w.server, InstalledExited(w), changed1, changed2, w.now);
    var phase := match r {
      case Refused(_, stale) => if stale.Some? then Discarding(stale.value) else Leaving
      case Admitted(stale, session) =>
        if stale.Some? then Closing(OpAcquire, stale.value)
        else if session.Some? then Granted(session.value)
        else Connecting(OpAcquire, w.shutdown.cancelled)
    };
    Sectioned(w, u, phase).(history := w.history.(flipped := w.history.flipped || TookUsed(w, u)))
  }

  function EnterStartStep(w: World, changed1: bool, changed2: bool): World {
    var (u, r) := StartEnter(w.server, InstalledExited(w), changed1, changed2);
    var phase := match r {
      case Refused(_, _) => Leaving
      case Admitted(stale, session) =>
        if session.Some? then Leaving
        else if stale.Some? then Closing(OpStart, stale.value)
        else Connecting(OpStart, w.shutdown.cancelled)
    };
    Sectioned(w, u, phase).(history := w.history.(flipped := w.history.flipped || TookUsed(w, u)))
  }

  function EnterStopStep(w: World): World {
    var (u, r) := StopEnter(w.server, w.now);
    Sectioned(w, u, match r {
      case Refused(_, _) => Leaving
      case Admitted(current, _) => if current.Some? then Closing(OpStop, current.value) else Settling(OpStop)
    })
  }

  function EnterRestartStep(w: World): World {
    var (u, r) := RestartEnter(w.server, w.now);
    Sectioned(w, u, match r {
      case Refused(_, _) => Leaving
      case Admitted(previous, _) =>
        if previous.Some? then Closing(OpRestart, previous.value) else Connecting(OpRestart, w.shutdown.cancelled)
    }).(history := w.history.(revived := w.history.revived || (r.Admitted? && w.server.deleted)))
  }

  function EnterWatchStep(w: World, generation: nat, s: Session): World {
    var (u, removed) := WatchEnter(w.server, generation, s, w.now);
    var closing := w.sessions.watchClosing + if removed then {s} else {};
    Sectioned(w, u, Leaving).(sessions := w.sessions.(watchClosing := closing))
  }

  function EnterIdleStep(w: World, a: Arming): World {
    var (u, verdict) := IdleEnter(w.server, a, w.shutdown.closing, w.defaultIdle, w.now);
    var phase := if verdict.StopNow? then Closing(OpIdle(a), verdict.session) else Leaving;
    var dropped := verdict.Ignored? && w.server.idleTimer == Some(a);
    Sectioned(w, u, phase).(history := w.history.(lost := w.history.lost || dropped))
  }

  function EnterCommitStep(w: World, next: Option<ServerEntry>): World {
    var (u, previous) := CommitEnter(w.server, next);
    Sectioned(w, u, if previous.Some? then Closing(OpCommit(next), previous.value) else Settling(OpCommit(next)))
  }

  function EnterShutdownStep(w: World): World {
    var (u, current) := ShutdownEnter(w.server, w.now);
    Sectioned(w, u, if current.Some? then Closing(OpShutdown, current.value) else Settling(OpShutdown))
      .(shutdown := w.shutdown.(shut := true))
  }

  function EnterStep(w: World, changed1: bool, changed2: bool): World
    requires w.phase.Ready?
  {
    match w.phase.op
    case OpAcquire => EnterAcquireStep(w, changed1, changed2)
    case OpStart => EnterStartStep(w, changed1, changed2)
    case OpStop => EnterStopStep(w)
    case OpRestart => EnterRestartStep(w)
    case OpWatch(generation, s) => EnterWatchStep(w, generation, s)
    case OpIdle(a) => EnterIdleStep(w, a)
    case OpCommit(next) => EnterCommitStep(w, next)
    case OpShutdown => EnterShutdownStep(w)
  }

  function CloseStep(w: World, ok: bool): World
    requires w.phase.Closing? || w.phase.Rejecting? || w.phase.Discarding?
  {
    match w.phase
    case Closing(op, s) =>
      var goesOn := op.OpAcquire? || op.OpStart? || (op.OpRestart? && ok);
      CloseSession(w, s, if goesOn then Connecting(op, w.shutdown.cancelled) else Settling(op))
    case Rejecting(op, s) => CloseSession(w, s, Settling(op))
    case Discarding(s) => CloseSession(w, s, Leaving)
  }

  function ConnectStep(w: World, s: Session): World
    requires w.phase.Connecting?
  {
    var op := w.phase.op;
    w.(sessions := w.sessions.(known := w.sessions.known + {s}),
       phase := if op.OpRestart? then Checked(op, s) else Connected(op, s),
       history := w.history.(rude := w.history.rude || (op.OpRestart? && w.phase.late)))
  }

  function PublishStep(w: World): World
    requires w.phase.Checked?
  {
    var s := w.phase.session;
    if w.phase.op.OpAcquire? then
      var (u, installed) := AcquireInstall(w.server, s, w.now);
      Sectioned(w, u, if installed then Granted(s) else Discarding(s))
    else
      Sectioned(w, PublishSession(w.server, s, w.shutdown.closing, w.defaultIdle, w.now), Leaving)
  }

  function Settled(v: Server, op: Op, touch: bool, now: int): Server {
    match op
    case OpAcquire => AcquireAbandon(v, now)
    case OpCommit(_) => CommitDone(v, now)
    case OpStop => ChangeDone(v, now)
    case OpIdle(_) => ChangeDone(v, now)
    case OpStart => if touch then ChangeDone(v, now) else ClearChanging(v)
    case _ => ClearChanging(v)
  }

  function SettleStep(w: World, touch: bool): World
    requires w.phase.Settling?
  {
    w.(server := Settled(w.server, w.phase.op, touch, w.now), phase := Leaving,
       mark := if w.phase.op.OpCommit? then Unmarked else w.mark)
  }

  function GrantStep(w: World, l: LeaseId): World
    requires w.phase.Granted?
  {
    w.(leases := w.leases.(live := w.leases.live + {l}, held := w.leases.held[l := w.phase.session]), phase := Leaving)
  }

  /** Release sets the flag of a lease exactly once, whether the caller or the timer of a lease comes first. */
  function ReleaseFlagStep(w: World, l: LeaseId): World {
    if l in w.leases.live then
      w.(leases := w.leases.(live := w.leases.live - {l}, releasing := w.leases.releasing + {l}))
    else w
  }

  function ReleaseCountStep(w: World, l: LeaseId): World {
    Sectioned(w, ReleaseUse(w.server, w.shutdown.closing, w.defaultIdle, w.now), w.phase)
      .(leases := w.leases.(releasing := w.leases.releasing - {l}))
  }

  function Noted(w: World, e: Event): Record
    requires Enabled(w, e)
  {
    match e
    case Enter(_, _) => w.record.(read := w.server.entry)
    case ConnectOk(s) => w.record.(entries := w.record.entries[s := w.record.read])
    case Publish => w.record.(lastUse := w.now)
    case ReleaseCount(_) => w.record.(lastUse := w.now)
    case _ => w.record
  }

  function Next(w: World, e: Event): World
    requires Enabled(w, e)
  {
    Moved(w, e).(record := Noted(w, e))
  }

  function Moved(w: World, e: Event): World
    requires Enabled(w, e)
  {
    match e
    case Take(op) =>
      w.(phase := Ready(op), timers := w.timers.(fired := w.timers.fired + if op.OpIdle? then {op.arming} else {}))
    case Enter(changed1, changed2) => EnterStep(w, changed1, changed2)
    case CloseOld(ok) => CloseStep(w, ok)
    case ConnectOk(s) => ConnectStep(w, s)
    case ConnectFail => w.(phase := Settling(w.phase.op))
    case ReadClosing =>
      w.(phase := if w.shutdown.closing then Rejecting(w.phase.op, w.phase.session)
                  else Checked(w.phase.op, w.phase.session))
    case Publish => PublishStep(w)
    case Settle(touch) => SettleStep(w, touch)
    case Grant(l) => GrantStep(w, l)
    case Unlock => w.(phase := Free)
    case ReleaseFlag(l) => ReleaseFlagStep(w, l)
    case ReleaseCount(l) => ReleaseCountStep(w, l)
    case WatchClose(s) =>
      CloseSession(w, s, w.phase).(sessions := w.sessions.(closes := w.sessions.closes + multiset{s},
                                                           watchClosing := w.sessions.watchClosing - {s}))
    case SetMark => w.(server := PrepareMark(w.server).0, mark := Preparing)
    case SetPending => w.(mark := Pending)
    case SetCommitting => w.(mark := Committing)
    case ClearMark => w.(server := w.server.(mutating := false), mark := Unmarked)
    case ReplaceEntry(entry) => w.(server := w.server.(entry := entry))
    case SessionExit(s) => w.(sessions := w.sessions.(exited := w.sessions.exited + {s}))
    case Touch => w.(server := w.server.(lastActivity := Some(w.now)))
    case Tick(t) => w.(now := t)
    case BeginClosing => w.(shutdown := w.shutdown.(closing := true))
    case Cancel => w.(shutdown := w.shutdown.(cancelled := true))
  }

  // ---------------------------------------------------------------------------------------------
  // The invariant
  // ---------------------------------------------------------------------------------------------

  /** Phases between the first section of an operation that goes on and its last one. */
  predicate Midway(p: Phase) {
    p.Closing? || p.Connecting? || p.Connected? || p.Checked? || p.Rejecting? || p.Settling?
  }

  /** Acquire calls that have raised the use count and have not yet returned a lease or given up. */
  function InFlight(p: Phase): nat {
    if p.Granted? || (Midway(p) && p.op.OpAcquire?) then 1 else 0
  }

  /** The session that the token holder owns: removed from the server, or not yet installed. */
  function Owned(p: Phase): Option<Session> {
    if p.Closing? || p.Connected? || p.Checked? || p.Rejecting? || p.Discarding? then Some(p.session) else None
  }

  predicate CountsLeases(active: int, ls: Leases, p: Phase) {
    && ls.live !! ls.releasing
    && ls.live + ls.releasing <= ls.held.Keys
    && active == |ls.live| + |ls.releasing| + InFlight(p)
  }

  predicate GuardsChanges(v: Server, p: Phase, mark: Mark) {
    && (v.mutating <==> !mark.Unmarked?)
    && (v.mutating ==> v.active == 0)
    && (v.runtimeChanging ==> Midway(p) && !p.op.OpAcquire?)
    && (Midway(p) && Connects(p.op) ==> v.runtimeChanging && !v.mutating)
    && ((Midway(p) || p.Ready?) && p.op.OpCommit? ==> mark.Committing?)
    && (Midway(p) && p.op.OpAcquire? ==> !v.deleted)
  }

  predicate PhaseShape(p: Phase) {
    && (Midway(p) ==> !p.op.OpWatch?)
    && (p.Connecting? || p.Checked? ==> p.op.OpAcquire? || Connects(p.op))
    && (p.Connected? || p.Rejecting? ==> p.op.OpAcquire? || p.op.OpStart?)
  }

  /** Every session is installed, owned by the token holder, waiting for its watcher, or closed once. */
  ghost predicate OwnsSessions(installed: Option<Session>, p: Phase, ss: Sessions) {
    var owned := Owned(p);
    && (Midway(p) || p.Discarding? ==> installed.None?)
    && (p.Granted? ==> installed == Some(p.session))
    && (installed.Some? ==> installed.value in ss.known && installed.value !in ss.watchClosing)
    && (owned.Some? ==> owned.value in ss.known && owned.value !in ss.watchClosing)
    && (p.Ready? && p.op.OpWatch? ==> p.op.session in ss.exited)
    && ss.watchClosing <= ss.exited <= ss.known
    && (forall s :: s in ss.closes ==> s in ss.known)
    && (forall s :: s in ss.known ==>
          ss.closes[s] == if Some(s) == installed || Some(s) == owned || s in ss.watchClosing then 0 else 1)
  }

  ghost predicate LeasesUsable(ls: Leases, installed: Option<Session>, exited: set<Session>) {
    forall l :: l in ls.live && l in ls.held ==> Some(ls.held[l]) == installed || ls.held[l] in exited
  }

  ghost predicate TimersCurrent(v: Server, ts: Timers) {
    var t := v.idleTimer;
    && (t.Some? ==>
          && v.session == Some(t.value.session)
          && v.active == 0 && v.entry.mode == Managed && !v.deleted && !v.runtimeChanging
          && t.value.generation == v.generation && t.value.sequence == v.idleSequence
          && v.idleDeadline == Some(t.value.deadline)
          && t.value in ts.armings)
    && (t.None? ==> v.idleDeadline.None?)
    && (forall a :: a in ts.armings ==> a.sequence <= v.idleSequence)
    && (forall a :: a in ts.armings && a.sequence == v.idleSequence ==> t == Some(a))
    && ts.fired <= ts.armings
  }

  /** A server the idle timeout applies to: managed, running, unused and not being changed. */
  predicate IdleRunning(v: Server, defaultIdle: int) {
    && v.entry.mode == Managed && v.session.Some? && v.active == 0
    && !v.deleted && !v.runtimeChanging && v.entry.IdleTimeout(defaultIdle) > 0
  }

  /** The idle timer is set and its callback is still to come. */
  predicate CallbackDue(v: Server, ts: Timers, p: Phase) {
    v.idleTimer.Some? && (v.idleTimer.value !in ts.fired || p == Ready(OpIdle(v.idleTimer.value)))
  }

  predicate PhaseTimer(p: Phase, ts: Timers) {
    p.Ready? && p.op.OpIdle? ==> p.op.arming in ts.armings && p.op.arming in ts.fired
  }

  predicate StaysShut(installed: Option<Session>, p: Phase, sd: Shutdown, rude: bool) {
    && (sd.cancelled ==> sd.closing)
    && (sd.shut ==> sd.cancelled)
    && (p.Ready? && p.op.OpShutdown? ==> sd.cancelled)
    && (sd.shut && !rude ==>
          && installed.None? && !p.Checked? && !p.Granted?
          && (p.Connecting? ==> p.late))
  }

  /** A removed server has no uses, and no session unless a restart took hold of it after the removal. */
  predicate StaysRemoved(v: Server, p: Phase, revived: bool) {
    v.deleted ==>
      && v.active == 0
      && (v.mutating ==> Midway(p) && p.op.OpCommit?)
      && (!revived ==> v.session.None? && (Midway(p) ==> !Connects(p.op)))
  }

  ghost predicate Inv(w: World) {
    && PhaseShape(w.phase)
    && CountsLeases(w.server.active, w.leases, w.phase)
    && GuardsChanges(w.server, w.phase, w.mark)
    && OwnsSessions(w.server.session, w.phase, w.sessions)
    && (!w.shutdown.shut && !w.history.flipped ==>
          LeasesUsable(w.leases, w.server.session, w.sessions.exited))
    && TimersCurrent(w.server, w.timers)
    && PhaseTimer(w.phase, w.timers)
    && (!w.shutdown.closing && !w.history.lost && IdleRunning(w.server, w.defaultIdle) ==>
          CallbackDue(w.server, w.timers, w.phase))
    && StaysShut(w.server.session, w.phase, w.shutdown, w.history.rude)
    && StaysRemoved(w.server, w.phase, w.history.revived)
  }

  lemma InitKeeps(entry: ServerEntry, defaultIdle: int, now: int)
    ensures Inv(Init(entry, defaultIdle, now))
  {
  }

  /** An operation that its first section refuses gives the token back and changes nothing else. */
  lemma RefusalKeeps(w: World)
    requires Inv(w) && w.phase.Ready?
    requires w.phase.op.OpIdle? && Some(w.phase.op.arming) == w.server.idleTimer ==> w.history.lost
    ensures Inv(Sectioned(w, w.server, Leaving))
  {
    assert w.timers.armings + (if w.server.idleTimer.Some? then {w.server.idleTimer.value} else {}) == w.timers.armings;
  }

  lemma DisarmKeeps(v: Server, u: Server, ts: Timers)
    requires TimersCurrent(v, ts)
    requires u.idleTimer.None? && u.idleDeadline.None? && u.idleSequence > v.idleSequence
    ensures TimersCurrent(u, ts)
  {
  }

  /** Scheduling leaves every earlier arming behind and arms exactly the servers that may idle. */
  lemma ScheduleKeeps(v: Server, closing: bool, defaultIdle: int, now: int, ts: Timers)
    requires forall a :: a in ts.armings ==> a.sequence <= v.idleSequence
    requires ts.fired <= ts.armings
    ensures var u := ScheduleIdle(v, closing, defaultIdle, now);
            && (u.idleTimer.None? ==> TimersCurrent(u, ts))
            && (u.idleTimer.Some? ==>
                  && TimersCurrent(u, ts.(armings := ts.armings + {u.idleTimer.value}))
                  && u.idleTimer.value !in ts.fired)
            && (u.idleTimer.Some? <==> MayIdle(v, closing) && v.entry.IdleTimeout(defaultIdle) > 0)
            && u.session == v.session && u.active == v.active && u.entry == v.entry
            && u.mutating == v.mutating && u.runtimeChanging == v.runtimeChanging && u.deleted == v.deleted
  {
  }

  /** The token holder takes the installed session out of the server and now owns it. */
  lemma RemovalOwns(s: Session, p: Phase, q: Phase, ss: Sessions)
    requires OwnsSessions(Some(s), p, ss) && p.Ready?
    requires q.Closing? || q.Discarding?
    requires q.session == s
    ensures OwnsSessions(None, q, ss)
  {
  }

  lemma InstallOwns(s: Session, p: Phase, q: Phase, ss: Sessions)
    requires OwnsSessions(None, p, ss) && Owned(p) == Some(s)
    requires q == Leaving || q == Granted(s)
    ensures OwnsSessions(Some(s), q, ss)
  {
  }

  lemma NothingOwned(installed: Option<Session>, p: Phase, q: Phase, ss: Sessions)
    requires OwnsSessions(installed, p, ss) && p.Ready?
    requires Owned(q).None? && !q.Ready?
    requires (Midway(q) ==> installed.None?) && (q.Granted? ==> installed == Some(q.session))
    ensures OwnsSessions(installed, q, ss)
  {
  }

  lemma EnterAcquireDrops(w: World, changed1: bool, changed2: bool)
    requires Inv(w) && w.phase == Ready(OpAcquire) && (changed1 ==> changed2)
    requires EnterAcquireStep(w, changed1, changed2).server.session != w.server.session
    ensures Inv(EnterAcquireStep(w, changed1, changed2))
  {
    hide OwnsSessions, TimersCurrent;
    var v, w' := w.server, EnterAcquireStep(w, changed1, changed2);
    DisarmKeeps(v, w'.server, w.timers);
    RemovalOwns(v.session.value, w.phase, w'.phase, w.sessions);
    assert w'.timers == w.timers && w'.leases == w.leases && w'.sessions == w.sessions;
    assert v.active > 0 && !w'.history.flipped ==> InstalledExited(w);
  }

  /** Acquire raises the use count on the session that is installed, or on none. */
  lemma AdmissionKeeps(w: World)
    requires Inv(w) && w.phase == Ready(OpAcquire)
    requires !w.server.deleted && !w.server.mutating && !w.server.runtimeChanging
    ensures var v := w.server;
            var u := CancelIdle(v).(active := v.active + 1, lastActivity := Some(w.now));
            var p := if v.session.Some? then Granted(v.session.value) else Connecting(OpAcquire, w.shutdown.cancelled);
            Inv(Sectioned(w, u, p))
  {
    hide OwnsSessions, TimersCurrent, LeasesUsable;
    var v := w.server;
    var u := CancelIdle(v).(active := v.active + 1, lastActivity := Some(w.now));
    var p := if v.session.Some? then Granted(v.session.value) else Connecting(OpAcquire, w.shutdown.cancelled);
    DisarmKeeps(v, u, w.timers);
    NothingOwned(v.session, w.phase, p, w.sessions);
    assert Sectioned(w, u, p).timers == w.timers;
  }

  lemma EnterAcquireKeeps(w: World, changed1: bool, changed2: bool)
    requires Inv(w) && w.phase == Ready(OpAcquire) && (changed1 ==> changed2)
    ensures Inv(EnterAcquireStep(w, changed1, changed2))
  {
    hide Inv;
    var v, w' := w.server, EnterAcquireStep(w, changed1, changed2);
    if w'.server == v {
      RefusalKeeps(w);
      assert w' == Sectioned(w, w.server, Leaving);
    } else if w'.server.session != v.session {
      EnterAcquireDrops(w, changed1, changed2);
    } else {
      AdmissionKeeps(w);
      assert w'.history == w.history;
    }
  }

  lemma EnterStartKeeps(w: World, changed1: bool, changed2: bool)
    requires Inv(w) && w.phase == Ready(OpStart) && (changed1 ==> changed2)
    ensures Inv(EnterStartStep(w, changed1, changed2))
  {
    var v, w' := w.server, EnterStartStep(w, changed1, changed2);
    if w'.server == v {
      RefusalKeeps(w);
      assert w' == Sectioned(w, w.server, Leaving);
    } else {
      EnterStartChanges(w, changed1, changed2);
    }
  }

  lemma EnterStartChanges(w: World, changed1: bool, changed2: bool)
    requires Inv(w) && w.phase == Ready(OpStart) && (changed1 ==> changed2)
    requires EnterStartStep(w, changed1, changed2).server != w.server
    ensures Inv(EnterStartStep(w, changed1, changed2))
  {
    var v, w' := w.server, EnterStartStep(w, changed1, changed2);
    DisarmKeeps(v, w'.server, w.timers);
    assert w'.timers == w.timers && w'.leases == w.leases && w'.sessions == w.sessions;
    if v.session.Some? {
      RemovalOwns(v.session.value, w.phase, w'.phase, w.sessions);
      assert v.active > 0 && !w'.history.flipped ==> InstalledExited(w);
    } else {
      NothingOwned(None, w.phase, w'.phase, w.sessions);
    }
  }

  /** Stop, Restart and the idle callback take the session of an unused server, if it has one. */
  lemma TakeAwayKeeps(w: World, u: Server, p: Phase)
    requires Inv(w) && w.phase.Ready? && w.server.active == 0 && !w.server.mutating
    requires w.phase.op.OpRestart? && w.server.deleted ==> w.history.revived
    requires var op := w.phase.op;
             && (op.OpStop? || op.OpIdle? || op.OpRestart?)
             && (w.server.session.Some? ==> p == Closing(op, w.server.session.value) && u.runtimeChanging)
             && (w.server.session.None? ==>
                   || (p == Settling(op) && op.OpStop?)
                   || (p == Connecting(op, w.shutdown.cancelled) && op.OpRestart? && u.runtimeChanging))
    requires u == DropSession(w.server).(runtimeChanging := u.runtimeChanging, lastActivity := u.lastActivity)
    ensures Inv(Sectioned(w, u, p))
  {
    DisarmKeeps(w.server, u, w.timers);
    assert Sectioned(w, u, p).timers == w.timers;
    if w.server.session.Some? {
      RemovalOwns(w.server.session.value, w.phase, p, w.sessions);
    } else {
      NothingOwned(None, w.phase, p, w.sessions);
    }
  }

  lemma EnterStopKeeps(w: World)
    requires Inv(w) && w.phase == Ready(OpStop)
    ensures Inv(EnterStopStep(w))
  {
    var (u, r) := StopEnter(w.server, w.now);
    if r.Refused? {
      RefusalKeeps(w);
    } else {
      TakeAwayKeeps(w, u, EnterStopStep(w).phase);
    }
  }

  lemma EnterRestartKeeps(w: World)
    requires Inv(w) && w.phase == Ready(OpRestart)
    ensures Inv(EnterRestartStep(w))
  {
    var (u, r) := RestartEnter(w.server, w.now);
    if r.Refused? {
      RefusalKeeps(w);
    } else {
      var known := w.(history := w.history.(revived := w.history.revived || w.server.deleted));
      TakeAwayKeeps(known, u, EnterRestartStep(w).phase);
      assert EnterRestartStep(w) == Sectioned(known, u, EnterRestartStep(w).phase);
    }
  }

  lemma EnterWatchKeeps(w: World, generation: nat, s: Session)
    requires Inv(w) && w.phase == Ready(OpWatch(generation, s))
    ensures Inv(EnterWatchStep(w, generation, s))
  {
    var (u, removed) := WatchEnter(w.server, generation, s, w.now);
    if !removed {
      RefusalKeeps(w);
      assert w.sessions.watchClosing + {} == w.sessions.watchClosing;
    } else {
      DisarmKeeps(w.server, u, w.timers);
    }
  }

  lemma RearmKeeps(w: World, a: Arming)
    requires Inv(w) && w.phase == Ready(OpIdle(a)) && MayIdle(w.server, false)
    ensures var u := ScheduleIdle(w.server, w.shutdown.closing, w.defaultIdle, w.now);
            Inv(Sectioned(w, u, Leaving))
  {
    hide OwnsSessions, LeasesUsable, TimersCurrent, ScheduleIdle;
    var v := w.server;
    TimersBounded(v, w.timers);
    ScheduleKeeps(v, w.shutdown.closing, w.defaultIdle, w.now, w.timers);
    NothingOwned(v.session, w.phase, Leaving, w.sessions);
    var u := ScheduleIdle(v, w.shutdown.closing, w.defaultIdle, w.now);
    assert u.idleTimer.None? ==> Sectioned(w, u, Leaving).timers == w.timers;
  }

  lemma TimersBounded(v: Server, ts: Timers)
    requires TimersCurrent(v, ts)
    ensures (forall a :: a in ts.armings ==> a.sequence <= v.idleSequence) && ts.fired <= ts.armings
  {
  }

  lemma EnterIdleKeeps(w: World, a: Arming)
    requires Inv(w) && w.phase == Ready(OpIdle(a))
    ensures Inv(EnterIdleStep(w, a))
  {
    hide Inv;
    var v, w' := w.server, EnterIdleStep(w, a);
    var (u, verdict) := IdleEnter(v, a, w.shutdown.closing, w.defaultIdle, w.now);
    match verdict {
      case Ignored =>
        var lost := w.(history := w.history.(lost := w.history.lost || v.idleTimer == Some(a)));
        LostKeeps(w, v.idleTimer == Some(a));
        RefusalKeeps(lost);
      case Rearmed =>
        RearmKeeps(w, a);
        assert w'.history == w.history;
      case StopNow(_) =>
        TakeAwayKeeps(w, u, w'.phase);
        assert w'.history == w.history;
    }
  }

  lemma LostKeeps(w: World, dropped: bool)
    requires Inv(w)
    ensures Inv(w.(history := w.history.(lost := w.history.lost || dropped)))
  {
  }

  lemma EnterCommitKeeps(w: World, next: Option<ServerEntry>)
    requires Inv(w) && w.phase == Ready(OpCommit(next))
    ensures Inv(EnterCommitStep(w, next))
  {
  }

  lemma EnterShutdownKeeps(w: World)
    requires Inv(w) && w.phase == Ready(OpShutdown)
    ensures Inv(EnterShutdownStep(w))
  {
  }

  lemma CloseKeeps(w: World, ok: bool)
    requires Inv(w) && (w.phase.Closing? || w.phase.Rejecting? || w.phase.Discarding?)
    ensures Inv(CloseStep(w, ok))
  {
  }

  lemma ConnectKeeps(w: World, s: Session)
    requires Inv(w) && w.phase.Connecting? && s !in w.sessions.known
    ensures Inv(ConnectStep(w, s))
  {
  }

  lemma AcquirePublishKeeps(w: World)
    requires Inv(w) && w.phase.Checked? && w.phase.op.OpAcquire?
    ensures Inv(PublishStep(w))
  {
    assert w.server.idleTimer.None?;
    assert PublishStep(w).timers == w.timers;
    assert PublishStep(w).phase == Granted(w.phase.session);
    InstallOwns(w.phase.session, w.phase, Granted(w.phase.session), w.sessions);
  }

  /** Any server value with the published session, a cleared change flag and sound timers will do. */
  lemma PublishedKeeps(w: World, u: Server)
    requires Inv(w) && w.phase.Checked? && Connects(w.phase.op)
    requires u.session == Some(w.phase.session) && u.active == w.server.active && u.entry == w.server.entry
    requires !u.mutating && !u.runtimeChanging && u.deleted == w.server.deleted
    requires TimersCurrent(u, Sectioned(w, u, Leaving).timers)
    requires !w.shutdown.closing && IdleRunning(u, w.defaultIdle) ==> CallbackDue(u, w.timers, Leaving)
    ensures Inv(Sectioned(w, u, Leaving))
  {
    InstallOwns(w.phase.session, w.phase, Leaving, w.sessions);
  }

  lemma NoTimerWithoutSession(w: World)
    requires Inv(w) && Midway(w.phase)
    ensures w.server.idleTimer.None?
  {
  }

  /** Publishing a session arms the timer of an unused server and leaves it alone otherwise. */
  lemma PublishTimers(v: Server, s: Session, closing: bool, defaultIdle: int, now: int, ts: Timers)
    requires TimersCurrent(v, ts) && v.idleTimer.None? && !v.mutating
    ensures var u := PublishSession(v, s, closing, defaultIdle, now);
            && u.session == Some(s) && u.active == v.active && u.entry == v.entry && u.deleted == v.deleted
            && !u.mutating && !u.runtimeChanging
            && TimersCurrent(u, ts.(armings := ts.armings + if u.idleTimer.Some? then {u.idleTimer.value} else {}))
            && (!closing && IdleRunning(u, defaultIdle) ==> u.idleTimer.Some? && u.idleTimer.value !in ts.fired)
  {
    var published := v.(session := Some(s), generation := v.generation + 1, runtimeChanging := false, lastActivity := Some(now));
    ScheduleKeeps(published, closing, defaultIdle, now, ts);
    assert ts.armings + {} == ts.armings;
  }

  lemma StartPublishKeeps(w: World)
    requires Inv(w) && w.phase.Checked? && !w.phase.op.OpAcquire?
    ensures Inv(PublishStep(w))
  {
    hide OwnsSessions, LeasesUsable, TimersCurrent, PublishSession;
    NoTimerWithoutSession(w);
    PublishTimers(w.server, w.phase.session, w.shutdown.closing, w.defaultIdle, w.now, w.timers);
    PublishedKeeps(w, PublishSession(w.server, w.phase.session, w.shutdown.closing, w.defaultIdle, w.now));
  }

  lemma PublishKeeps(w: World)
    requires Inv(w) && w.phase.Checked?
    ensures Inv(PublishStep(w))
  {
    if w.phase.op.OpAcquire? {
      AcquirePublishKeeps(w);
    } else {
      StartPublishKeeps(w);
    }
  }

  lemma SettleKeeps(w: World, touch: bool)
    requires Inv(w) && w.phase.Settling?
    ensures Inv(SettleStep(w, touch))
  {
  }

  lemma GrantKeeps(w: World, l: LeaseId)
    requires Inv(w) && w.phase.Granted? && l !in w.leases.held
    ensures Inv(GrantStep(w, l))
  {
  }

  lemma ReleaseFlagKeeps(w: World, l: LeaseId)
    requires Inv(w)
    ensures Inv(ReleaseFlagStep(w, l))
  {
  }

  lemma ReleaseCountKeeps(w: World, l: LeaseId)
    requires Inv(w) && l in w.leases.releasing
    ensures Inv(ReleaseCountStep(w, l))
  {
    ScheduleKeeps(AcquireAbandon(w.server, w.now), w.shutdown.closing, w.defaultIdle, w.now, w.timers);
  }

  lemma TakeKeeps(w: World, op: Op)
    requires Inv(w) && Enabled(w, Take(op))
    ensures Inv(Moved(w, Take(op)))
  {
    var w' := Moved(w, Take(op));
    assert !op.OpIdle? ==> w'.timers.fired == w.timers.fired;
  }

  lemma TokenStepKeeps(w: World, e: Event)
    requires Inv(w) && Enabled(w, e) && (e.ConnectFail? || e.ReadClosing? || e.Unlock?)
    ensures Inv(Moved(w, e))
  {
  }

  lemma SessionStepKeeps(w: World, e: Event)
    requires Inv(w) && Enabled(w, e) && (e.WatchClose? || e.SessionExit?)
    ensures Inv(Moved(w, e))
  {
  }

  lemma MarkStepKeeps(w: World, e: Event)
    requires Inv(w) && Enabled(w, e) && (e.SetMark? || e.SetPending? || e.SetCommitting? || e.ClearMark?)
    ensures Inv(Moved(w, e))
  {
    hide OwnsSessions, LeasesUsable;
  }

  lemma OutsideStepKeeps(w: World, e: Event)
    requires Inv(w) && Enabled(w, e)
    requires e.ReplaceEntry? || e.Touch? || e.Tick? || e.BeginClosing? || e.Cancel?
    ensures Inv(Moved(w, e))
  {
  }

  lemma EnterKeeps(w: World, changed1: bool, changed2: bool)
    requires Inv(w) && w.phase.Ready? && (changed1 ==> changed2)
    ensures Inv(EnterStep(w, changed1, changed2))
  {
    match w.phase.op
    case OpAcquire => EnterAcquireKeeps(w, changed1, changed2);
    case OpStart => EnterStartKeeps(w, changed1, changed2);
    case OpStop => EnterStopKeeps(w);
    case OpRestart => EnterRestartKeeps(w);
    case OpWatch(generation, s) => EnterWatchKeeps(w, generation, s);
    case OpIdle(a) => EnterIdleKeeps(w, a);
    case OpCommit(next) => EnterCommitKeeps(w, next);
    case OpShutdown => EnterShutdownKeeps(w);
  }

  lemma StepKeeps(w: World, e: Event)
    requires Inv(w) && Enabled(w, e)
    ensures Inv(Next(w, e))
  {
    hide Inv, EnterStep, CloseStep, ConnectStep, PublishStep, SettleStep, GrantStep, ReleaseFlagStep, ReleaseCountStep;
    MovedKeeps(w, e);
    RecordIsFree(Moved(w, e), Noted(w, e));
  }

  lemma RecordIsFree(w: World, record: Record)
    requires Inv(w)
    ensures Inv(w.(record := record))
  {
  }

  lemma MovedKeeps(w: World, e: Event)
    requires Inv(w) && Enabled(w, e)
    ensures Inv(Moved(w, e))
  {
    match e
    case Enter(changed1, changed2) => EnterKeeps(w, changed1, changed2);
    case CloseOld(ok) => CloseKeeps(w, ok);
    case ConnectOk(s) => ConnectKeeps(w, s);
    case Publish => PublishKeeps(w);
    case Settle(touch) => SettleKeeps(w, touch);
    case Grant(l) => GrantKeeps(w, l);
    case ReleaseFlag(l) => ReleaseFlagKeeps(w, l);
    case ReleaseCount(l) => ReleaseCountKeeps(w, l);
    case Take(op) => TakeKeeps(w, op);
    case ConnectFail => TokenStepKeeps(w, e);
    case ReadClosing => TokenStepKeeps(w, e);
    case Unlock => TokenStepKeeps(w, e);
    case WatchClose(_) => SessionStepKeeps(w, e);
    case SessionExit(_) => SessionStepKeeps(w, e);
    case SetMark => MarkStepKeeps(w, e);
    case SetPending => MarkStepKeeps(w, e);
    case SetCommitting => MarkStepKeeps(w, e);
    case ClearMark => MarkStepKeeps(w, e);
    case _ => OutsideStepKeeps(w, e);
  }

  // ---------------------------------------------------------------------------------------------
  // What the configuration says about the server is respected
  // ---------------------------------------------------------------------------------------------

  /** The session was connected with an entry for which it will still do. */
  predicate ConnectedRightly(w: World, s: Session) {
    s in w.record.entries && SameRuntime(w.record.entries[s], w.server.entry)
  }

  /** The installed session, and the one that is to be installed, belong to the entry that the server has now. */
  predicate EntriesAgree(w: World) {
    var p := w.phase;
    && w.record.entries.Keys == w.sessions.known
    && (w.server.session.Some? ==> ConnectedRightly(w, w.server.session.value))
    && (p.Connected? || p.Checked? ==> ConnectedRightly(w, p.session))
    && ((p.Closing? || p.Connecting?) && (p.op.OpAcquire? || Connects(p.op)) ==> SameRuntime(w.record.read, w.server.entry))
  }

  /** A commit has given the server its new entry, or removed it. */
  predicate CommitsRightly(v: Server, p: Phase) {
    Midway(p) && p.op.OpCommit? ==> if p.op.next.Some? then SameRuntime(v.entry, p.op.next.value) else v.deleted
  }

  /** Acquire does not start a manual server, and neither Acquire nor Start uses a disabled one. */
  predicate ModesHold(mode: Mode, p: Phase) {
    && (Midway(p) && p.op.OpAcquire? ==> mode != Manual && mode != Disabled)
    && (Midway(p) && p.op.OpStart? ==> mode != Disabled)
    && (p.Granted? ==> mode != Disabled)
  }

  /** The idle timer leaves the server its whole timeout after the last use. */
  predicate TimerWaits(w: World) {
    var v := w.server;
    && w.record.lastUse <= w.now
    && (v.lastActivity.Some? ==> w.record.lastUse <= v.lastActivity.value)
    && (v.idleTimer.Some? ==> v.idleTimer.value.deadline >= w.record.lastUse + v.entry.IdleTimeout(w.defaultIdle))
  }

  ghost predicate Right(w: World) {
    Inv(w) && EntriesAgree(w) && CommitsRightly(w.server, w.phase) && ModesHold(w.server.entry.mode, w.phase) && TimerWaits(w)
  }

  lemma InitIsRight(entry: ServerEntry, defaultIdle: int, now: int)
    ensures Right(Init(entry, defaultIdle, now))
  {
    InitKeeps(entry, defaultIdle, now);
  }

  /** How a step may change the entry and the session. */
  predicate EntryMoves(w: World, e: Event, w': World) {
    var v, u := w.server, w'.server;
    && (u.entry == v.entry || (e.ReplaceEntry? && SameRuntime(u.entry, v.entry))
        || (e.Enter? && w.phase.Ready? && w.phase.op.OpCommit? && u.session.None? && Midway(w'.phase) && w'.phase.op.OpCommit?))
    && (u.deleted == v.deleted || (e.Enter? && w.phase.Ready? && w.phase.op == OpCommit(None) && u.deleted))
    && (e.Enter? && w.phase.Ready? && w.phase.op.OpCommit? ==>
          if w.phase.op.next.Some? then u.entry == w.phase.op.next.value else u.deleted)
    && (u.session == v.session || (e.Enter? && u.session.None?) || (e.Publish? && w.phase.Checked? && u.session == Some(w.phase.session)))
  }

  /** How a step may move the token holder. */
  predicate PhaseMoves(w: World, e: Event, w': World) {
    var p, q := w.phase, w'.phase;
    && (Midway(q) ==> if e.Enter? then p.Ready? && p.op == q.op else p == q || (Midway(p) && p.op == q.op))
    && (e.Enter? && Midway(q) ==> q.Closing? || q.Connecting? || q.Settling?)
    && (e.Enter? && Midway(q) && q.op.OpAcquire? ==> w.server.entry.mode != Manual && w.server.entry.mode != Disabled)
    && (e.Enter? && Midway(q) && q.op.OpStart? ==> w.server.entry.mode != Disabled)
    && (q.Granted? && e.Enter? ==> w.server.entry.mode != Disabled)
    && (q.Granted? && !e.Enter? ==> p == q || (e.Publish? && p.Checked? && p.op.OpAcquire?))
    && (q.Closing? && !e.Enter? ==> p == q)
    && (q.Connecting? && !e.Enter? ==> p == q || (p.Closing? && p.op == q.op))
    && (q.Connected? || q.Checked? ==>
          p == q || (e.ConnectOk? && p.Connecting? && e.session == q.session) || (p.Connected? && p.session == q.session))
    && w'.sessions.known == (if e.ConnectOk? then w.sessions.known + {e.session} else w.sessions.known)
  }

  /** How a step may set the idle timer and the last activity. */
  predicate TimerMoves(w: World, e: Event, w': World) {
    var v, u := w.server, w'.server;
    && w.now <= w'.now && w'.defaultIdle == w.defaultIdle
    && (u.lastActivity == v.lastActivity || u.lastActivity == Some(w.now))
    && (e.Publish? || e.ReleaseCount? ==> u.lastActivity == Some(w.now))
    && (u.idleTimer.None? || (u.idleTimer == v.idleTimer && (u.entry == v.entry || e.ReplaceEntry?))
        || (u.lastActivity.Some? && u.entry == v.entry
            && u.idleTimer.value.deadline == u.lastActivity.value + u.entry.IdleTimeout(w.defaultIdle)))
  }

  ghost predicate Moves(w: World, e: Event) {
    Enabled(w, e) && EntryMoves(w, e, Moved(w, e)) && PhaseMoves(w, e, Moved(w, e)) && TimerMoves(w, e, Moved(w, e))
  }

  lemma AcquireEnterMoves(w: World, changed1: bool, changed2: bool)
    requires w.phase == Ready(OpAcquire) && (changed1 ==> changed2)
    ensures Moves(w, Enter(changed1, changed2))
  {
    hide CloseStep, ConnectStep, PublishStep, SettleStep, GrantStep, ReleaseFlagStep, ReleaseCountStep;
  }

  lemma StartEnterMoves(w: World, changed1: bool, changed2: bool)
    requires w.phase == Ready(OpStart) && (changed1 ==> changed2)
    ensures Moves(w, Enter(changed1, changed2))
  {
    hide CloseStep, ConnectStep, PublishStep, SettleStep, GrantStep, ReleaseFlagStep, ReleaseCountStep;
  }

  lemma IdleEnterMoves(w: World, changed1: bool, changed2: bool)
    requires w.phase.Ready? && w.phase.op.OpIdle? && (changed1 ==> changed2)
    ensures Moves(w, Enter(changed1, changed2))
  {
    hide CloseStep, ConnectStep, PublishStep, SettleStep, GrantStep, ReleaseFlagStep, ReleaseCountStep;
  }

  lemma StopEnterMoves(w: World, changed1: bool, changed2: bool)
    requires w.phase.Ready? && (w.phase.op.OpStop? || w.phase.op.OpRestart?) && (changed1 ==> changed2)
    ensures Moves(w, Enter(changed1, changed2))
  {
    hide CloseStep, ConnectStep, PublishStep, SettleStep, GrantStep, ReleaseFlagStep, ReleaseCountStep;
    hide EnterAcquireStep, EnterStartStep, EnterIdleStep, EnterWatchStep, EnterCommitStep, EnterShutdownStep;
  }

  lemma OtherEnterMoves(w: World, changed1: bool, changed2: bool)
    requires w.phase.Ready? && (w.phase.op.OpWatch? || w.phase.op.OpCommit? || w.phase.op.OpShutdown?) && (changed1 ==> changed2)
    ensures Moves(w, Enter(changed1, changed2))
  {
    hide CloseStep, ConnectStep, PublishStep, SettleStep, GrantStep, ReleaseFlagStep, ReleaseCountStep;
    hide EnterAcquireStep, EnterStartStep, EnterIdleStep, EnterStopStep, EnterRestartStep;
  }

  lemma PublishMoves(w: World)
    requires w.phase.Checked?
    ensures Moves(w, Publish)
  {
    hide EnterStep, CloseStep, ConnectStep, SettleStep, GrantStep, ReleaseFlagStep, ReleaseCountStep;
  }

  lemma ReleaseMoves(w: World, l: LeaseId)
    requires l in w.leases.releasing
    ensures Moves(w, ReleaseCount(l))
  {
    hide EnterStep, CloseStep, ConnectStep, SettleStep, GrantStep, ReleaseFlagStep, PublishStep;
  }

  lemma OtherMoves(w: World, e: Event)
    requires Enabled(w, e) && !e.Enter? && !e.Publish? && !e.ReleaseCount?
    ensures Moves(w, e)
  {
    hide EnterStep, PublishStep, ReleaseCountStep;
  }

  lemma EveryStepMoves(w: World, e: Event)
    requires Enabled(w, e)
    ensures Moves(w, e)
  {
    hide Moves;
    match e
    case Enter(changed1, changed2) =>
      match w.phase.op {
        case OpAcquire => AcquireEnterMoves(w, changed1, changed2);
        case OpStart => StartEnterMoves(w, changed1, changed2);
        case OpIdle(_) => IdleEnterMoves(w, changed1, changed2);
        case OpStop => StopEnterMoves(w, changed1, changed2);
        case OpRestart => StopEnterMoves(w, changed1, changed2);
        case _ => OtherEnterMoves(w, changed1, changed2);
      }
    case Publish => PublishMoves(w);
    case ReleaseCount(l) => ReleaseMoves(w, l);
    case _ => OtherMoves(w, e);
  }

  /** Outside the sections that connect, the holder has no session to install. */
  lemma ConnectingHolder(w: World)
    requires Inv(w)
    ensures w.phase.Connecting? || w.phase.Checked? || w.phase.Connected? ==> w.phase.op.OpAcquire? || Connects(w.phase.op)
    ensures w.phase.Connecting? || w.phase.Checked? || w.phase.Connected? ==> w.server.session.None?
    ensures Midway(w.phase) || w.server.active > 0 ==> w.server.idleTimer.None?
    ensures w.server.session.Some? ==> w.server.session.value in w.sessions.known
    ensures w.phase.Connected? || w.phase.Checked? ==> w.phase.session in w.sessions.known
    ensures w.leases.releasing != {} ==> w.server.active > 0
  {
  }

  lemma StepKeepsEntries(w: World, e: Event)
    requires Inv(w) && EntriesAgree(w) && Enabled(w, e)
    ensures EntriesAgree(Next(w, e))
  {
    hide Inv, Moved;
    EveryStepMoves(w, e);
    ConnectingHolder(w);
  }

  lemma StepKeepsCommit(w: World, e: Event)
    requires Inv(w) && CommitsRightly(w.server, w.phase) && Enabled(w, e)
    ensures CommitsRightly(Next(w, e).server, Next(w, e).phase)
  {
    hide Inv, Moved;
    EveryStepMoves(w, e);
  }

  lemma StepKeepsModes(w: World, e: Event)
    requires Inv(w) && ModesHold(w.server.entry.mode, w.phase) && Enabled(w, e)
    ensures ModesHold(Next(w, e).server.entry.mode, Next(w, e).phase)
  {
    hide Inv, Moved;
    EveryStepMoves(w, e);
  }

  lemma StepKeepsTimer(w: World, e: Event)
    requires Inv(w) && TimerWaits(w) && Enabled(w, e)
    ensures TimerWaits(Next(w, e))
  {
    hide Inv, Moved;
    EveryStepMoves(w, e);
    ConnectingHolder(w);
  }

  lemma StepKeepsRight(w: World, e: Event)
    requires Right(w) && Enabled(w, e)
    ensures Right(Next(w, e))
  {
    hide Inv, Next, EntriesAgree, CommitsRightly, ModesHold, TimerWaits;
    StepKeeps(w, e);
    StepKeepsCommit(w, e);
    StepKeepsEntries(w, e);
    StepKeepsModes(w, e);
    StepKeepsTimer(w, e);
  }

  // ---------------------------------------------------------------------------------------------
  // Every run
  // ---------------------------------------------------------------------------------------------

  /** The event leads from one world to the other. */
  predicate Leads(w: World, e: Event, w': World) {
    Enabled(w, e) && w' == Next(w, e)
  }

  predicate Path(ws: seq<World>, es: seq<Event>) {
    |ws| == |es| + 1 && forall i :: 0 <= i < |es| ==> Leads(ws[i], es[i], ws[i + 1])
  }

  predicate Run(ws: seq<World>, es: seq<Event>) {
    Path(ws, es) && ws[0] == Init(ws[0].server.entry, ws[0].defaultIdle, ws[0].now)
  }

  lemma {:induction false} RunKeeps(ws: seq<World>, es: seq<Event>, i: nat)
    requires Run(ws, es) && i < |ws|
    ensures Inv(ws[i])
    decreases i
  {
    if i == 0 {
      InitKeeps(ws[0].server.entry, ws[0].defaultIdle, ws[0].now);
    } else {
      RunKeeps(ws, es, i - 1);
      assert Leads(ws[i - 1], es[i - 1], ws[i]);
      StepKeeps(ws[i - 1], es[i - 1]);
    }
  }

  lemma {:induction false} RunIsRight(ws: seq<World>, es: seq<Event>, i: nat)
    requires Run(ws, es) && i < |ws|
    ensures Right(ws[i])
    decreases i
  {
    hide Right, Next, Enabled;
    if i == 0 {
      InitIsRight(ws[0].server.entry, ws[0].defaultIdle, ws[0].now);
    } else {
      RunIsRight(ws, es, i - 1);
      assert Leads(ws[i - 1], es[i - 1], ws[i]);
      StepKeepsRight(ws[i - 1], es[i - 1]);
    }
  }

  /** In every run the installed session was connected with an entry for which it still does. */
  lemma SessionBelongsToEntry(ws: seq<World>, es: seq<Event>, i: nat, s: Session)
    requires Run(ws, es) && i < |ws| && ws[i].server.session == Some(s)
    ensures s in ws[i].record.entries && SameRuntime(ws[i].record.entries[s], ws[i].server.entry)
  {
    hide Inv;
    RunIsRight(ws, es, i);
  }

  /**
   Over every run: Acquire connects neither manual nor disabled servers, nothing is granted on a disabled
   one, and a session appears only when the holder publishes it: on a manual server by Start or Restart,
   and on a disabled one by Restart.
   */
  lemma ModesAreRespected(ws: seq<World>, es: seq<Event>, i: nat)
    requires Run(ws, es) && i < |es|
    ensures var w, mode := ws[i], ws[i].server.entry.mode;
            && (w.phase.Connecting? && w.phase.op.OpAcquire? ==> mode != Manual && mode != Disabled)
            && (w.phase.Connecting? && w.phase.op.OpStart? ==> mode != Disabled)
            && (es[i].Grant? ==> mode != Disabled)
            && (ws[i + 1].server.session.Some? && ws[i + 1].server.session != w.server.session ==>
                  && es[i].Publish? && w.phase.Checked? && ws[i + 1].server.session == Some(w.phase.session)
                  && (mode == Manual ==> w.phase.op.OpStart? || w.phase.op.OpRestart?)
                  && (mode == Disabled ==> w.phase.op.OpRestart?))
  {
    hide Moved;
    RunIsRight(ws, es, i);
    assert Leads(ws[i], es[i], ws[i + 1]);
    EveryStepMoves(ws[i], es[i]);
  }

  /** The reasons for which each operation may take the installed session away. */
  predicate MayTakeSession(w: World, changed2: bool)
    requires w.phase.Ready?
  {
    match w.phase.op
    case OpAcquire => (InstalledExited(w) || changed2) && w.server.entry.mode != Disabled && !w.server.deleted && w.mark.Unmarked?
    case OpStart => (InstalledExited(w) || changed2) && w.server.entry.mode != Disabled && !w.server.deleted && w.mark.Unmarked?
    case OpStop => w.server.entry.mode != AlwaysOn && w.server.active == 0 && !w.server.deleted && w.mark.Unmarked?
    case OpRestart => w.server.active == 0 && w.mark.Unmarked?
    case OpWatch(_, s) => w.server.session == Some(s) && s in w.sessions.exited && !w.server.deleted
    case OpIdle(a) => w.server.entry.mode == Managed && w.server.active == 0 && w.now >= a.deadline && w.mark.Unmarked?
    case OpCommit(_) => w.mark.Committing?
    case OpShutdown => w.shutdown.cancelled
  }

  /** Only the first section of an operation takes the installed session away, and only for these reasons. */
  lemma SessionLeavesForReason(w: World, e: Event)
    requires Inv(w) && Enabled(w, e) && w.server.session.Some? && Next(w, e).server.session != w.server.session
    ensures e.Enter? && w.phase.Ready? && MayTakeSession(w, e.changed2) && Next(w, e).server.session.None?
  {
    hide Inv, Moved, MayTakeSession;
    EveryStepMoves(w, e);
    ConnectingHolder(w);
    EnterTakesForReason(w, e);
  }

  lemma EnterTakesForReason(w: World, e: Event)
    requires Inv(w) && Enabled(w, e) && e.Enter?
    requires w.server.session.Some? && Moved(w, e).server.session != w.server.session
    ensures MayTakeSession(w, e.changed2)
  {
    hide LeasesUsable;
    if w.phase.op.OpIdle? {
      IdleStopsOwnSession(w, w.phase.op.arming);
    }
  }

  /** A timer that is set runs from the last activity for exactly the configured timeout; after a release or a start, from now. */
  lemma ArmingIsExact(w: World, e: Event)
    requires Inv(w) && Enabled(w, e) && Next(w, e).server.idleTimer.Some? && Next(w, e).server.idleTimer != w.server.idleTimer
    ensures var v := Next(w, e).server;
            && v.lastActivity.Some? && v.idleTimer.value.deadline == v.lastActivity.value + v.entry.IdleTimeout(w.defaultIdle)
            && (e.Publish? || e.ReleaseCount? ==> v.idleTimer.value.deadline == w.now + v.entry.IdleTimeout(w.defaultIdle))
  {
    hide Inv, Moved;
    EveryStepMoves(w, e);
  }

  lemma {:induction false} LastUseIsLatest(ws: seq<World>, es: seq<Event>, i: nat, k: nat)
    requires Run(ws, es) && k < i < |ws| && (es[k].Publish? || es[k].ReleaseCount?)
    ensures ws[k].now <= ws[i].record.lastUse
    decreases i
  {
    hide Inv, Moved, EntriesAgree, ModesHold;
    assert Leads(ws[i - 1], es[i - 1], ws[i]);
    RunIsRight(ws, es, i - 1);
    if k < i - 1 {
      LastUseIsLatest(ws, es, i - 1, k);
    }
  }

  /** In every run an idle callback stops a server only when its whole timeout has passed since every start and release. */
  lemma IdleStopWaits(ws: seq<World>, es: seq<Event>, i: nat, k: nat)
    requires Run(ws, es) && k < i < |es| && (es[k].Publish? || es[k].ReleaseCount?)
    requires es[i].Enter? && ws[i].phase.Ready? && ws[i].phase.op.OpIdle? && ws[i + 1].server.session != ws[i].server.session
    ensures ws[i].now >= ws[k].now + ws[i].server.entry.IdleTimeout(ws[i].defaultIdle)
  {
    hide EntriesAgree, ModesHold;
    RunIsRight(ws, es, i);
    LastUseIsLatest(ws, es, i, k);
    assert Leads(ws[i], es[i], ws[i + 1]);
    IdleStopsOwnSession(ws[i], ws[i].phase.op.arming);
  }

  /**
   In every interleaving the use count is the number of unreleased leases, plus the releases and the
   Acquire calls under way; a server marked for a configuration change has none of them, and a
   runtime change happens only under the token.
   */
  lemma UseCountIsExact(ws: seq<World>, es: seq<Event>, i: nat)
    requires Run(ws, es) && i < |ws|
    ensures var w := ws[i];
            && w.server.active == |w.leases.live| + |w.leases.releasing| + InFlight(w.phase)
            && (w.server.mutating ==> w.leases.live == {} && w.leases.releasing == {} && InFlight(w.phase) == 0)
            && (w.server.runtimeChanging ==> !w.phase.Free?)
  {
    RunKeeps(ws, es, i);
  }

  /** No decrement is ever skipped by its guard, and Acquire never finds its server changed after connect. */
  lemma GuardsNeverFire(ws: seq<World>, es: seq<Event>, i: nat)
    requires Run(ws, es) && i < |es|
    ensures es[i].ReleaseCount? ==> ws[i + 1].server.active == ws[i].server.active - 1
    ensures es[i].Settle? && ws[i].phase == Settling(OpAcquire) ==> ws[i + 1].server.active == ws[i].server.active - 1
    ensures es[i].Publish? && ws[i].phase.Checked? && ws[i].phase.op.OpAcquire? ==>
              ws[i + 1].phase == Granted(ws[i].phase.session)
    ensures es[i].Grant? ==> ws[i].mark.Unmarked?
  {
    RunKeeps(ws, es, i);
    var w := ws[i];
    assert Leads(w, es[i], ws[i + 1]);
    if es[i].ReleaseCount? {
      assert w.leases.releasing != {};
    }
  }

  /** A lease is counted down once: flagging it again, by its holder or by its task timer, does nothing. */
  lemma ReleaseCountsOnce(w: World, l: LeaseId)
    requires Inv(w) && l in w.leases.live
    ensures var flagged := ReleaseFlagStep(w, l);
            && ReleaseFlagStep(flagged, l) == flagged
            && Enabled(flagged, ReleaseCount(l))
            && var counted := ReleaseCountStep(flagged, l);
               && counted.server.active == w.server.active - 1
               && ReleaseFlagStep(counted, l) == counted
               && !Enabled(counted, ReleaseCount(l))
  {
    var flagged := ReleaseFlagStep(w, l);
    ReleaseFlagKeeps(w, l);
    assert flagged.leases.releasing != {};
  }

  /** Until shutdown reaches the server, an unreleased lease has a session that is installed or has exited. */
  lemma LeasedSessionsSurvive(ws: seq<World>, es: seq<Event>, i: nat, l: LeaseId)
    requires Run(ws, es) && i < |ws| && l in ws[i].leases.live
    requires !ws[i].shutdown.shut && !ws[i].history.flipped
    ensures l in ws[i].leases.held
    ensures var s := ws[i].leases.held[l];
            Some(s) == ws[i].server.session || s in ws[i].sessions.exited
  {
    RunKeeps(ws, es, i);
  }

  /** Every session is closed at most once, and once nobody is responsible for it any more, exactly once. */
  lemma SessionsClosedOnce(ws: seq<World>, es: seq<Event>, i: nat, s: Session)
    requires Run(ws, es) && i < |ws|
    ensures var w := ws[i];
            && w.sessions.closes[s] <= 1
            && (w.sessions.closes[s] == 1 <==>
                  && s in w.sessions.known && s !in w.sessions.watchClosing
                  && Some(s) != w.server.session && Some(s) != Owned(w.phase))
  {
    RunKeeps(ws, es, i);
  }

  /** A server never has two sessions that are both running and not closed. */
  lemma OneRunningSession(ws: seq<World>, es: seq<Event>, i: nat, s: Session, t: Session)
    requires Run(ws, es) && i < |ws|
    requires var ss := ws[i].sessions;
             {s, t} <= ss.known - ss.exited && ss.closes[s] == 0 && ss.closes[t] == 0
    ensures s == t
  {
    RunKeeps(ws, es, i);
    assert s in ws[i].sessions.known && t in ws[i].sessions.known;
  }

  /** After the server's shutdown section only a restart that connected under a cancelled context installs a session. */
  lemma ShutServersStayEmpty(ws: seq<World>, es: seq<Event>, i: nat)
    requires Run(ws, es) && i < |ws| && ws[i].shutdown.shut && !ws[i].history.rude
    ensures ws[i].server.session.None?
  {
    RunKeeps(ws, es, i);
  }

  /** A removed server has neither leases nor a timer, and a session only if a restart took hold of it since. */
  lemma RemovedServersStayEmpty(ws: seq<World>, es: seq<Event>, i: nat)
    requires Run(ws, es) && i < |ws| && ws[i].server.deleted
    ensures ws[i].leases.live == {} && ws[i].server.idleTimer.None? && !ws[i].phase.Granted?
    ensures ws[i].server.session.Some? ==> exists k :: 0 <= k < i && RestartsRemoved(ws[k], es[k])
  {
    RunKeeps(ws, es, i);
    HistoryOfRun(ws, es, i);
  }

  /** An armed timer has a session and no leases; while no callback was ignored, an idle server has one due. */
  lemma IdleTimerIsSound(ws: seq<World>, es: seq<Event>, i: nat)
    requires Run(ws, es) && i < |ws|
    ensures var w := ws[i];
            && (w.server.idleTimer.Some? ==>
                  w.server.session == Some(w.server.idleTimer.value.session) && w.leases.live == {})
            && (!w.shutdown.closing && !w.history.lost && IdleRunning(w.server, w.defaultIdle) ==>
                  CallbackDue(w.server, w.timers, w.phase))
  {
    RunKeeps(ws, es, i);
  }

  /** A callback that stops the server is the current one, past its deadline, and closes its own session. */
  lemma IdleStopsOwnSession(w: World, a: Arming)
    requires Inv(w) && w.phase == Ready(OpIdle(a)) && EnterIdleStep(w, a).server.session != w.server.session
    ensures w.server.idleTimer == Some(a) && w.now >= a.deadline && w.leases.live == {}
    ensures w.server.session == Some(a.session)
    ensures EnterIdleStep(w, a).phase == Closing(OpIdle(a), a.session)
  {
    var (_, verdict) := IdleEnter(w.server, a, w.shutdown.closing, w.defaultIdle, w.now);
    assert verdict.StopNow?;
  }

  /** Callbacks of cancelled armings change nothing. */
  lemma CancelledCallbackIgnored(w: World, a: Arming)
    requires Inv(w) && w.phase == Ready(OpIdle(a)) && w.server.idleTimer != Some(a)
    ensures EnterIdleStep(w, a) == w.(phase := Leaving)
  {
    assert a.sequence < w.server.idleSequence;
    var made := if w.server.idleTimer.Some? then {w.server.idleTimer.value} else {};
    assert w.timers.armings + made == w.timers.armings;
  }

  /** The callback of the current arming is ignored exactly while a mutation is marked. */
  lemma CurrentCallbackIgnoredIff(w: World, a: Arming)
    requires Inv(w) && w.phase == Ready(OpIdle(a)) && w.server.idleTimer == Some(a)
    ensures IdleEnter(w.server, a, w.shutdown.closing, w.defaultIdle, w.now).1.Ignored? <==> !w.mark.Unmarked?
    ensures EnterIdleStep(w, a).server == w.server <==> !w.mark.Unmarked?
  {
  }

  /** The callback of the current arming stops an unmarked server exactly if its deadline has come; before, it is armed again. */
  lemma CurrentCallbackStopsIff(w: World, a: Arming)
    requires Inv(w) && w.phase == Ready(OpIdle(a)) && w.server.idleTimer == Some(a) && w.mark.Unmarked?
    ensures EnterIdleStep(w, a).server.session.None? <==> w.now >= a.deadline
    ensures w.now >= a.deadline ==> EnterIdleStep(w, a).phase == Closing(OpIdle(a), a.session)
    ensures w.now < a.deadline && !w.shutdown.closing && w.server.entry.IdleTimeout(w.defaultIdle) > 0 ==>
              EnterIdleStep(w, a).server.idleTimer.Some?
  {
  }

  /** Acquire and Start connect whether or not the stale session could be closed. */
  lemma StaleCloseMayFail(w: World, ok: bool)
    requires w.phase.Closing? && (w.phase.op.OpAcquire? || w.phase.op.OpStart?)
    ensures Next(w, CloseOld(ok)).phase == Connecting(w.phase.op, w.shutdown.cancelled)
  {
  }

  /** A restart connects only if the old session was closed; otherwise the server is left stopped and free for the next operation. */
  lemma FailedCloseEndsRestart(w: World, touch: bool)
    requires Inv(w) && w.phase.Closing? && w.phase.op.OpRestart?
    ensures Next(w, CloseOld(true)).phase.Connecting?
    ensures var w1 := Next(w, CloseOld(false));
            && Enabled(w1, Settle(touch))
            && var w2 := Next(w1, Settle(touch));
               w2.phase.Leaving? && w2.server.session.None? && !w2.server.runtimeChanging && w2.sessions.closes[w.phase.session] == 1
  {
  }

  /** Acquire or Start sees an unchanged contract while the session is in use, and a changed one right after. */
  predicate FlipsUnderUse(w: World, e: Event) {
    && e.Enter? && !e.changed1 && e.changed2 && w.phase.Ready? && (w.phase.op.OpAcquire? || w.phase.op.OpStart?)
    && w.server.session.Some? && !InstalledExited(w) && w.server.active > 0
    && !w.server.deleted && w.server.entry.mode != Disabled
  }

  /** The callback of the current arming runs while a configuration mutation has the server marked. */
  predicate FiresWhileMarked(w: World, e: Event) {
    && e.Enter? && w.phase.Ready? && w.phase.op.OpIdle? && w.server.idleTimer == Some(w.phase.op.arming)
    && !w.mark.Unmarked?
  }

  /** A restart whose connect began under a cancelled context nevertheless obtains a session. */
  predicate ConnectsLate(w: World, e: Event) {
    e.ConnectOk? && w.phase == Connecting(OpRestart, true)
  }

  /** A restart that waited for the token gets it on a server that has been removed. */
  predicate RestartsRemoved(w: World, e: Event) {
    e.Enter? && w.phase == Ready(OpRestart) && w.server.deleted
  }

  lemma UseHistoryIsExact(w: World, e: Event)
    requires Inv(w) && Enabled(w, e) && e.Enter? && (w.phase.op.OpAcquire? || w.phase.op.OpStart?)
    ensures Next(w, e).history == w.history.(flipped := w.history.flipped || FlipsUnderUse(w, e))
  {
  }

  lemma IdleHistoryIsExact(w: World, e: Event)
    requires Inv(w) && Enabled(w, e) && e.Enter? && w.phase.op.OpIdle?
    ensures Next(w, e).history == w.history.(lost := w.history.lost || FiresWhileMarked(w, e))
  {
    var a := w.phase.op.arming;
    if w.server.idleTimer == Some(a) {
      CurrentCallbackIgnoredIff(w, a);
    } else {
      CancelledCallbackIgnored(w, a);
    }
  }

  lemma RestartHistoryIsExact(w: World, e: Event)
    requires Inv(w) && Enabled(w, e) && e.Enter? && w.phase.op.OpRestart?
    ensures Next(w, e).history == w.history.(revived := w.history.revived || RestartsRemoved(w, e))
  {
  }

  /** The exceptions that the theorems above allow for come about in these ways and in no others. */
  lemma HistoryIsExact(w: World, e: Event)
    requires Inv(w) && Enabled(w, e)
    ensures Next(w, e).history == History(w.history.flipped || FlipsUnderUse(w, e),
                                          w.history.rude || ConnectsLate(w, e),
                                          w.history.lost || FiresWhileMarked(w, e),
                                          w.history.revived || RestartsRemoved(w, e))
  {
    hide Inv;
    if e.Enter? {
      if w.phase.op.OpAcquire? || w.phase.op.OpStart? {
        UseHistoryIsExact(w, e);
      } else if w.phase.op.OpIdle? {
        IdleHistoryIsExact(w, e);
      } else if w.phase.op.OpRestart? {
        RestartHistoryIsExact(w, e);
      }
    }
  }

  /** Each exception is on record exactly if an earlier step of the run brought it about. */
  lemma {:induction false} HistoryOfRun(ws: seq<World>, es: seq<Event>, i: nat)
    requires Run(ws, es) && i < |ws|
    ensures ws[i].history.flipped <==> exists k :: 0 <= k < i && FlipsUnderUse(ws[k], es[k])
    ensures ws[i].history.rude <==> exists k :: 0 <= k < i && ConnectsLate(ws[k], es[k])
    ensures ws[i].history.lost <==> exists k :: 0 <= k < i && FiresWhileMarked(ws[k], es[k])
    ensures ws[i].history.revived <==> exists k :: 0 <= k < i && RestartsRemoved(ws[k], es[k])
    decreases i
  {
    hide Inv, Next, FlipsUnderUse, ConnectsLate, FiresWhileMarked, RestartsRemoved;
    if i > 0 {
      HistoryOfRun(ws, es, i - 1);
      RunKeeps(ws, es, i - 1);
      assert Leads(ws[i - 1], es[i - 1], ws[i]);
      HistoryIsExact(ws[i - 1], es[i - 1]);
    }
  }

  // ---------------------------------------------------------------------------------------------
  // The object goes through the same runs
  // ---------------------------------------------------------------------------------------------

  /** The first section of the token holder's operation, performed on the object. */
  method PerformEnter(st: ServerState, w: World, changed1: bool, changed2: bool)
    requires st.View() == w.server && w.phase.Ready?
    modifies st
    ensures st.View() == EnterStep(w, changed1, changed2).server
  {
    match w.phase.op
    case OpAcquire => var r := st.EnterAcquire(InstalledExited(w), changed1, changed2, w.now);
    case OpStart => var r := st.EnterStart(InstalledExited(w), changed1, changed2);
    case OpStop => var r := st.EnterStop(w.now);
    case OpRestart => var r := st.EnterRestart(w.now);
    case OpWatch(generation, s) => var removed := st.EnterWatch(generation, s, w.now);
    case OpIdle(a) => var verdict := st.EnterIdle(a, w.shutdown.closing, w.defaultIdle, w.now);
    case OpCommit(next) => var previous := st.EnterCommit(next);
    case OpShutdown => var current := st.EnterShutdown(w.now);
  }

  method PerformSettle(st: ServerState, w: World, touch: bool)
    requires st.View() == w.server && w.phase.Settling?
    modifies st
    ensures st.View() == SettleStep(w, touch).server
  {
    match w.phase.op
    case OpAcquire => st.AbandonAcquire(w.now);
    case OpCommit(_) => st.FinishCommit(w.now);
    case OpStop => st.FinishChange(w.now);
    case OpIdle(_) => st.FinishChange(w.now);
    case OpStart =>
      if touch {
        st.FinishChange(w.now);
      } else {
        st.FinishChanging();
      }
    case _ => st.FinishChanging();
  }

  /** One event, performed on the object by the section of the service that it stands for. */
  method Perform(st: ServerState, w: World, e: Event)
    requires Enabled(w, e) && st.View() == w.server
    modifies st
    ensures st.View() == Next(w, e).server
  {
    hide AcquireEnter, StartEnter, StopEnter, RestartEnter, WatchEnter, IdleEnter, CommitEnter, ShutdownEnter, ReleaseUse, PublishSession;
    match e
    case Enter(changed1, changed2) => PerformEnter(st, w, changed1, changed2);
    case Publish =>
      if w.phase.op.OpAcquire? {
        var installed := st.InstallAcquired(w.phase.session, w.now);
      } else {
        st.Publish(w.phase.session, w.shutdown.closing, w.defaultIdle, w.now);
      }
    case Settle(touch) => PerformSettle(st, w, touch);
    case ReleaseCount(_) => st.Release(w.shutdown.closing, w.defaultIdle, w.now);
    case SetMark => var marked := st.MarkForMutation();
    case ClearMark => st.mutating := false;
    case ReplaceEntry(entry) => st.entry := entry;
    case Touch => st.lastActivity := Some(w.now);
    case _ =>
  }

  /** The object goes through every run of the machine: what is proved of the runs holds of its fields. */
  method Follow(ws: seq<World>, es: seq<Event>) returns (st: ServerState)
    requires Run(ws, es)
    ensures fresh(st) && st.View() == ws[|es|].server
  {
    hide Next, Enabled;
    st := new ServerState(ws[0].server.entry);
    for i := 0 to |es|
      invariant fresh(st) && st.View() == ws[i].server
    {
      assert Leads(ws[i], es[i], ws[i + 1]);
      Perform(st, ws[i], es[i]);
    }
  }

  // ---------------------------------------------------------------------------------------------
  // Runs that show the excepted cases do happen
  // ---------------------------------------------------------------------------------------------

  const Sample := ServerEntry("s", "s", Managed, "", "", RuntimeConfig(0, 0, Some(60)), "", [])

  /** A managed server whose only session is used by one lease. */
  function Used(): World {
    World(300, 0, Server(Sample, Some(1), 1, Some(0), None, None, 1, 1, false, false, false), Free, Unmarked,
          Leases({0}, {}, map[0 := 1]), Sessions({1}, {}, multiset{}, {}), Timers({}, {}),
          Shutdown(false, false, false), History(false, false, false, false), Record(map[1 := Sample], Sample, 0))
  }

  /** The same server while the session that Acquire connected is not installed yet. */
  function Fetched(): World {
    Used().(phase := Checked(OpAcquire, 1), leases := Leases({}, {}, map[]),
            server := Used().server.(session := None, generation := 0))
  }

  /** The world in which the first Acquire of the server is connecting. */
  function Dialing(): World {
    Init(Sample, 300, 0).(phase := Connecting(OpAcquire, false), server := Fetched().server)
  }

  /** Two paths of which one begins where the other ends make one path. */
  lemma Joined(ws: seq<World>, es: seq<Event>, us: seq<World>, fs: seq<Event>) returns (vs: seq<World>)
    requires Path(ws, es) && Path(us, fs) && ws[|es|] == us[0]
    ensures Path(vs, es + fs) && vs[0] == ws[0] && vs[|es + fs|] == us[|fs|]
  {
    vs := ws + us[1..];
    forall i | 0 <= i < |es + fs| ensures Leads(vs[i], (es + fs)[i], vs[i + 1]) {
      if i < |es| {
        assert Leads(ws[i], es[i], ws[i + 1]);
      } else {
        assert Leads(us[i - |es|], fs[i - |es|], us[i - |es| + 1]);
      }
    }
  }

  const Dial := [Take(OpAcquire), Enter(false, false)]
  const Fetch := [ConnectOk(1), ReadClosing]
  const Use := [Publish, Grant(0), Unlock]
  const Flip := [Take(OpAcquire), Enter(false, true)]
  const GoIdle := [ReleaseFlag(0), ReleaseCount(0)]
  const Fire := [SetMark, SetPending, Take(OpIdle(Arming(1, 3, 1, 60)))]
  const Ignore := [Enter(false, false), Unlock, ClearMark]

  lemma DialingReachable() returns (ws: seq<World>)
    ensures Path(ws, Dial) && ws[0] == Init(Sample, 300, 0) && ws[2] == Dialing()
  {
    var w0 := Init(Sample, 300, 0);
    var w1 := w0.(phase := Ready(OpAcquire));
    assert Leads(w0, Take(OpAcquire), w1);
    assert Leads(w1, Enter(false, false), Dialing());
    ws := [w0, w1, Dialing()];
  }

  lemma FetchedReachable() returns (ws: seq<World>)
    ensures Path(ws, Fetch) && ws[0] == Dialing() && ws[2] == Fetched()
  {
    var w1 := Dialing().(phase := Connected(OpAcquire, 1), sessions := Sessions({1}, {}, multiset{}, {}), record := Used().record);
    assert Leads(Dialing(), ConnectOk(1), w1);
    assert Leads(w1, ReadClosing, Fetched());
    ws := [Dialing(), w1, Fetched()];
  }

  lemma UsedFetched() returns (ws: seq<World>)
    ensures Path(ws, Use) && ws[0] == Fetched() && ws[3] == Used()
  {
    var w1 := Fetched().(phase := Granted(1), server := Used().server);
    assert Leads(Fetched(), Publish, w1);
    var w2 := w1.(phase := Leaving, leases := Used().leases);
    assert Leads(w1, Grant(0), w2);
    assert Leads(w2, Unlock, Used());
    ws := [Fetched(), w1, w2, Used()];
  }

  lemma UsedReachable() returns (ws: seq<World>)
    ensures Path(ws, Dial + Fetch + Use) && ws[0] == Init(Sample, 300, 0) && ws[7] == Used()
  {
    hide Leads, Init, Dialing, Fetched, Used;
    var dial := DialingReachable();
    var fetch := FetchedReachable();
    var use := UsedFetched();
    ws := Joined(dial, Dial, fetch, Fetch);
    ws := Joined(ws, Dial + Fetch, use, Use);
  }

  lemma FlipTakes() returns (ws: seq<World>)
    ensures Path(ws, Flip) && ws[0] == Used()
    ensures var w := ws[2];
            0 in w.leases.live && w.leases.held == map[0 := 1] && w.server.session.None? && w.sessions.exited == {}
  {
    var w1 := Used().(phase := Ready(OpAcquire));
    assert Leads(Used(), Take(OpAcquire), w1);
    var w2 := Next(w1, Enter(false, true));
    assert Leads(w1, Enter(false, true), w2);
    ws := [Used(), w1, w2];
  }

  /** A run in which a flip takes the running session of a lease away from it. */
  lemma FlipTakesUsedSession() returns (ws: seq<World>)
    ensures Run(ws, Dial + Fetch + Use + Flip)
    ensures var w := ws[9];
            0 in w.leases.live && w.leases.held == map[0 := 1] && w.server.session.None? && w.sessions.exited == {}
  {
    hide Leads, Used;
    var used := UsedReachable();
    var flip := FlipTakes();
    ws := Joined(used, Dial + Fetch + Use, flip, Flip);
  }

  /** `Used` after its lease was released: the idle timer is armed. */
  function Idling(): World {
    var a := Arming(1, 3, 1, 60);
    Used().(server := Used().server.(active := 0, idleTimer := Some(a), idleDeadline := Some(60), idleSequence := 3),
            leases := Leases({}, {}, map[0 := 1]), timers := Timers({a}, {}))
  }

  lemma IdlingReachable() returns (ws: seq<World>)
    ensures Path(ws, GoIdle) && ws[0] == Used() && ws[2] == Idling()
  {
    var w1 := Used().(leases := Leases({}, {0}, map[0 := 1]));
    assert Leads(Used(), ReleaseFlag(0), w1);
    assert Leads(w1, ReleaseCount(0), Idling());
    ws := [Used(), w1, Idling()];
  }

  /** `Idling` while a prepared mutation has it marked and its callback has begun. */
  function Firing(): World {
    var a := Arming(1, 3, 1, 60);
    Idling().(server := Idling().server.(mutating := true), mark := Pending,
              phase := Ready(OpIdle(a)), timers := Timers({a}, {a}))
  }

  lemma FiringReachable() returns (ws: seq<World>)
    ensures Path(ws, Fire) && ws[0] == Idling() && ws[3] == Firing()
  {
    var w1 := Idling().(server := Idling().server.(mutating := true), mark := Preparing);
    assert Leads(Idling(), SetMark, w1);
    var w2 := w1.(mark := Pending);
    assert Leads(w1, SetPending, w2);
    assert Leads(w2, Take(OpIdle(Arming(1, 3, 1, 60))), Firing());
    ws := [Idling(), w1, w2, Firing()];
  }

  /** An idle server stays up, unmarked, with nobody at work on it and no callback due. */
  predicate StaysUp(w: World) {
    && w.mark.Unmarked? && w.phase.Free? && IdleRunning(w.server, w.defaultIdle)
    && !CallbackDue(w.server, w.timers, w.phase)
  }

  lemma FiringIgnored() returns (ws: seq<World>)
    ensures Path(ws, Ignore) && ws[0] == Firing() && StaysUp(ws[3])
  {
    var a, w0 := Arming(1, 3, 1, 60), Firing();
    var w1 := w0.(phase := Leaving, history := History(false, false, true, false));
    assert w0.timers.armings + {a} == w0.timers.armings;
    assert Leads(w0, Enter(false, false), w1);
    var w2 := w1.(phase := Free);
    assert Leads(w1, Unlock, w2);
    var w3 := w2.(server := Idling().server, mark := Unmarked);
    assert Leads(w2, ClearMark, w3);
    ws := [w0, w1, w2, w3];
  }

  /** A run in which a callback comes between prepare and abort and is lost: the idle server stays up. */
  lemma IdleCallbackLost() returns (ws: seq<World>)
    ensures Run(ws, Dial + Fetch + Use + GoIdle + Fire + Ignore) && StaysUp(ws[15])
  {
    hide Leads, Used, Idling, Firing, StaysUp;
    ws := UsedReachable();
    var idling := IdlingReachable();
    var firing := FiringReachable();
    var ignored := FiringIgnored();
    ws := Joined(ws, Dial + Fetch + Use, idling, GoIdle);
    ws := Joined(ws, Dial + Fetch + Use + GoIdle, firing, Fire);
    ws := Joined(ws, Dial + Fetch + Use + GoIdle + Fire, ignored, Ignore);
  }

  const Reinstall := [Enter(false, false), ConnectOk(1), Publish, Unlock]

  lemma AdmitsRestart(w: World)
    requires Inv(w) && w.phase == Ready(OpRestart) && 1 !in w.sessions.known
    requires w.server.deleted || (w.server.active == 0 && !w.server.mutating)
    ensures w.server.active == 0 && !w.server.mutating && !w.server.runtimeChanging
    ensures 1 !in w.sessions.closes && 1 !in w.sessions.exited
  {
  }

  /**
   Restart reads neither flag. Once it has the token of a server that was removed or shut and has no
   session, it can install one, whatever happened before.
   */
  lemma RestartInstallsAnyway(w: World) returns (ws: seq<World>)
    requires Inv(w) && w.phase == Ready(OpRestart) && 1 !in w.sessions.known && w.server.session.None?
    requires w.server.deleted || (w.server.active == 0 && !w.server.mutating)
    ensures Path(ws, Reinstall) && ws[0] == w
    ensures var w' := ws[4];
            && w'.server.session == Some(1) && w'.phase.Free?
            && 1 !in w'.sessions.closes && 1 !in w'.sessions.exited
            && w'.shutdown == w.shutdown && w'.server.deleted == w.server.deleted
            && (w.shutdown.cancelled ==> w'.history.rude) && (w.server.deleted ==> w'.history.revived)
  {
    hide Inv;
    AdmitsRestart(w);
    var w1 := Next(w, Enter(false, false));
    assert Leads(w, Enter(false, false), w1) && w1.record == w.record.(read := w.server.entry) && w1.phase == Connecting(OpRestart, w.shutdown.cancelled);
    var w2 := Next(w1, ConnectOk(1));
    assert Leads(w1, ConnectOk(1), w2) && w2.phase == Checked(OpRestart, 1);
    var w3 := Next(w2, Publish);
    assert Leads(w2, Publish, w3) && w3.phase == Leaving;
    ws := [w, w1, w2, w3, w3.(phase := Free)];
  }

  /** A server that a commit removed before it was ever used, with a restart that got its token. */
  function Removed(): World {
    Init(Sample, 300, 0).(server := Server(Sample, None, 0, Some(0), None, None, 1, 1, false, false, true),
                          phase := Ready(OpRestart))
  }

  /** The same server before the commit, which has not got the token yet. */
  function Doomed(): World {
    var w := Init(Sample, 300, 0);
    w.(server := w.server.(mutating := true), mark := Committing)
  }

  const Doom := [SetMark, SetPending, SetCommitting]
  const Remove := [Take(OpCommit(None)), Enter(false, false), Settle(false), Unlock, Take(OpRestart)]

  lemma DoomedReachable() returns (ws: seq<World>)
    ensures Path(ws, Doom) && ws[0] == Init(Sample, 300, 0) && ws[3] == Doomed()
  {
    var w0, w1, w2 := Init(Sample, 300, 0), Doomed().(mark := Preparing), Doomed().(mark := Pending);
    assert Leads(w0, SetMark, w1);
    assert Leads(w1, SetPending, w2);
    assert Leads(w2, SetCommitting, Doomed());
    ws := [w0, w1, w2, Doomed()];
  }

  lemma DoomedRemoved() returns (ws: seq<World>)
    ensures Path(ws, Remove) && ws[0] == Doomed() && ws[5] == Removed()
  {
    var w1 := Doomed().(phase := Ready(OpCommit(None)));
    assert Leads(Doomed(), Take(OpCommit(None)), w1);
    var w2 := w1.(server := Removed().server.(mutating := true, lastActivity := None), phase := Settling(OpCommit(None)));
    assert Leads(w1, Enter(false, false), w2);
    var w3, w4 := Removed().(phase := Leaving), Removed().(phase := Free);
    assert Leads(w2, Settle(false), w3);
    assert Leads(w3, Unlock, w4);
    assert Leads(w4, Take(OpRestart), Removed());
    ws := [Doomed(), w1, w2, w3, w4, Removed()];
  }

  /** A run in which a restart that waited out a removal leaves the removed server with a running session. */
  lemma RestartRevivesRemoved() returns (ws: seq<World>)
    ensures Run(ws, Doom + Remove + Reinstall)
    ensures var w := ws[12];
            && w.server.deleted && w.server.session == Some(1) && w.phase.Free?
            && 1 !in w.sessions.exited && 1 !in w.sessions.closes
  {
    hide Inv, Leads;
    var doomed := DoomedReachable();
    var removed := DoomedRemoved();
    ws := Joined(doomed, Doom, removed, Remove);
    RunKeeps(ws, Doom + Remove, 8);
    var installed := RestartInstallsAnyway(Removed());
    ws := Joined(ws, Doom + Remove, installed, Reinstall);
  }

  /** From then on only another restart, or a shutdown that still knows the server, takes the session away. */
  lemma RemovedSessionIsStranded(w: World, e: Event)
    requires Inv(w) && Enabled(w, e) && w.server.deleted && w.server.session.Some?
    ensures Next(w, e).server.deleted
    ensures Next(w, e).server.session != w.server.session ==>
              e.Enter? && (w.phase == Ready(OpRestart) || w.phase == Ready(OpShutdown))
  {
    hide CountsLeases, LeasesUsable, TimersCurrent, PhaseTimer, CallbackDue;
  }

  /** A server that was shut before it was ever used, with a restart that got its token. */
  function Shut(): World {
    Init(Sample, 300, 0).(server := Server(Sample, None, 0, Some(0), None, None, 1, 1, false, false, false),
                          shutdown := Shutdown(true, true, true), phase := Ready(OpRestart))
  }

  /** The same server when shutdown has got its token. */
  function Closed(): World {
    Init(Sample, 300, 0).(shutdown := Shutdown(true, true, false), phase := Ready(OpShutdown))
  }

  const GoDown := [BeginClosing, Cancel, Take(OpShutdown)]
  const ShutOff := [Enter(false, false), Settle(false), Unlock, Take(OpRestart)]

  lemma ClosedReachable() returns (ws: seq<World>)
    ensures Path(ws, GoDown) && ws[0] == Init(Sample, 300, 0) && ws[3] == Closed()
  {
    var w0 := Init(Sample, 300, 0);
    var w1, w2 := w0.(shutdown := Shutdown(true, false, false)), w0.(shutdown := Shutdown(true, true, false));
    assert Leads(w0, BeginClosing, w1);
    assert Leads(w1, Cancel, w2);
    assert Leads(w2, Take(OpShutdown), Closed());
    ws := [w0, w1, w2, Closed()];
  }

  lemma ClosedShut() returns (ws: seq<World>)
    ensures Path(ws, ShutOff) && ws[0] == Closed() && ws[4] == Shut()
  {
    var w1, w2, w3 := Shut().(phase := Settling(OpShutdown)), Shut().(phase := Leaving), Shut().(phase := Free);
    assert Leads(Closed(), Enter(false, false), w1);
    assert Leads(w1, Settle(false), w2);
    assert Leads(w2, Unlock, w3);
    assert Leads(w3, Take(OpRestart), Shut());
    ws := [Closed(), w1, w2, w3, Shut()];
  }

  /** A run in which a restart whose connect ignores the cancellation leaves a shut server with a session. */
  lemma RestartRevivesShut() returns (ws: seq<World>)
    ensures Run(ws, GoDown + ShutOff + Reinstall)
    ensures var w := ws[11];
            && w.shutdown.shut && w.server.session == Some(1) && w.phase.Free?
            && 1 !in w.sessions.exited && 1 !in w.sessions.closes
  {
    hide Inv, Leads;
    var closed := ClosedReachable();
    var shut := ClosedShut();
    ws := Joined(closed, GoDown, shut, ShutOff);
    RunKeeps(ws, GoDown + ShutOff, 7);
    var installed := RestartInstallsAnyway(Shut());
    ws := Joined(ws, GoDown + ShutOff, installed, Reinstall);
  }
}
