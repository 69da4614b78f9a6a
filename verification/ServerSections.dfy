/**
 The critical sections of one routed server. Every section that the service runs under the server's
 mutex is given twice: as a function on the value `Server`, which the concurrent machine in
 `LifecycleMachine` composes, and as a method of the class `ServerState`, which performs the same
 field updates in place and is proved equal to the function.
 */
module ServerSections {
  import opened Common
  import opened ServerConfig

  /** Identity of one downstream session returned by `connect`. */
  type Session = nat

  /** One arming of the idle timer: what the timer callback was created with, and its deadline. */
  datatype Arming = Arming(generation: nat, sequence: nat, session: Session, deadline: int)

  datatype Refusal =
    | ServerNotFound
    | ServerBusy(active: int)
    | ServerDisabled
    | ManualServerStopped
    | AlwaysOnMaintained

  /** The mutable fields of one server, as a value. */
  datatype Server = Server(
    entry: ServerEntry,
    session: Option<Session>,
    active: int,
    lastActivity: Option<int>,
    idleTimer: Option<Arming>,
    idleDeadline: Option<int>,
    idleSequence: nat,
    generation: nat,
    mutating: bool,
    runtimeChanging: bool,
    deleted: bool)

  function NewServer(entry: ServerEntry): Server {
    Server(entry, None, 0, None, None, None, 0, 0, false, false, false)
  }

  /** What an admission section decided; `stale` is a removed session that the caller must close. */
  datatype Admission =
    | Refused(refusal: Refusal, stale: Option<Session>)
    | Admitted(stale: Option<Session>, session: Option<Session>)

  /** What the idle callback decided. */
  datatype IdleVerdict = Ignored | Rearmed | StopNow(session: Session)

  function CancelIdle(v: Server): Server {
    v.(idleSequence := v.idleSequence + 1, idleTimer := None, idleDeadline := None)
  }

  predicate MayIdle(v: Server, closing: bool) {
    && !closing && !v.deleted && v.entry.mode == Managed && v.active == 0
    && v.session.Some? && !v.mutating && !v.runtimeChanging
  }

  function ScheduleIdle(v: Server, closing: bool, default: int, now: int): Server {
    var c := CancelIdle(v);
    var idle := v.entry.IdleTimeout(default);
    if !MayIdle(c, closing) || idle <= 0 then c
    else
      var last := if c.lastActivity.Some? then c.lastActivity.value else now;
      var sequence := c.idleSequence + 1;
      c.(lastActivity := Some(last), idleSequence := sequence, idleDeadline := Some(last + idle),
         idleTimer := Some(Arming(c.generation, sequence, c.session.value, last + idle)))
  }

  /** Removes the session that is installed, exactly as the stale branch of Acquire and Start does. */
  function DropSession(v: Server): Server {
    CancelIdle(v.(session := None, generation := v.generation + 1))
  }

  /**
   First section of Acquire. The contract-changed flag of the session is read twice without a lock,
   so both readings are inputs; `exited` is whether the installed session has exited.
   */
  function AcquireEnter(v: Server, exited: bool, changed1: bool, changed2: bool, now: int): (Server, Admission) {
    if v.deleted then (v, Refused(ServerNotFound, None))
    else if v.mutating || v.runtimeChanging then (v, Refused(ServerBusy(v.active), None))
    else if v.entry.mode == Disabled then (v, Refused(ServerDisabled, None))
    else if v.session.Some? && changed1 && v.active > 0 then (v, Refused(ServerBusy(v.active), None))
    else
      var drop := v.session.Some? && (exited || changed2);
      var stale := if drop then v.session else None;
      var u := if drop then DropSession(v) else v;
      if u.entry.mode == Manual && u.session.None? then (u, Refused(ManualServerStopped, stale))
      else
        (CancelIdle(u).(active := u.active + 1, lastActivity := Some(now)), Admitted(stale, u.session))
  }

  /** The section that gives back the use count when Acquire fails after it was taken. */
  function AcquireAbandon(v: Server, now: int): Server {
    v.(active := if v.active > 0 then v.active - 1 else v.active, lastActivity := Some(now))
  }

  /** Last section of Acquire: installs the connected session, or reports that it must be discarded. */
  function AcquireInstall(v: Server, connected: Session, now: int): (Server, bool) {
    if v.deleted || v.mutating || v.runtimeChanging then (AcquireAbandon(v, now), false)
    else
      (v.(session := Some(connected), generation := v.generation + 1, lastActivity := Some(now)), true)
  }

  function StartEnter(v: Server, exited: bool, changed1: bool, changed2: bool): (Server, Admission) {
    if v.deleted then (v, Refused(ServerNotFound, None))
    else if v.mutating || v.runtimeChanging then (v, Refused(ServerBusy(v.active), None))
    else if v.entry.mode == Disabled then (v, Refused(ServerDisabled, None))
    else if v.session.Some? && changed1 && v.active > 0 then (v, Refused(ServerBusy(v.active), None))
    else
      var drop := v.session.Some? && (exited || changed2);
      var stale := if drop then v.session else None;
      var u := if drop then DropSession(v) else v;
      if u.session.Some? then (u, Admitted(stale, u.session))
      else (CancelIdle(u).(runtimeChanging := true), Admitted(stale, None))
  }

  /** Section shared by Start and Restart that publishes the connected session. */
  function PublishSession(v: Server, connected: Session, closing: bool, default: int, now: int): Server {
    var u := v.(session := Some(connected), generation := v.generation + 1,
                runtimeChanging := false, lastActivity := Some(now));
    if u.active == 0 then ScheduleIdle(u, closing, default, now) else u
  }

  function ChangeDone(v: Server, now: int): Server {
    v.(runtimeChanging := false, lastActivity := Some(now))
  }

  function StopEnter(v: Server, now: int): (Server, Admission) {
    if v.deleted then (v, Refused(ServerNotFound, None))
    else if v.entry.mode == AlwaysOn then (v, Refused(AlwaysOnMaintained, None))
    else if v.active > 0 || v.mutating || v.runtimeChanging then (v, Refused(ServerBusy(v.active), None))
    else (DropSession(v).(runtimeChanging := v.session.Some?, lastActivity := Some(now)), Admitted(v.session, None))
  }

  function RestartEnter(v: Server, now: int): (Server, Admission) {
    if v.active > 0 || v.mutating || v.runtimeChanging then (v, Refused(ServerBusy(v.active), None))
    else (DropSession(v).(runtimeChanging := true, lastActivity := Some(now)), Admitted(v.session, None))
  }

  /** Section of the watcher goroutine; the result says whether the exited session was removed. */
  function WatchEnter(v: Server, generation: nat, session: Session, now: int): (Server, bool) {
    if v.deleted || v.generation != generation || v.session != Some(session) then (v, false)
    else (DropSession(v).(lastActivity := Some(now)), true)
  }

  /** Section of the idle-timer callback that was armed with `a`. */
  function IdleEnter(v: Server, a: Arming, closing: bool, default: int, now: int): (Server, IdleVerdict) {
    if || v.deleted || v.entry.mode != Managed || v.active != 0 || v.mutating || v.runtimeChanging
       || v.generation != a.generation || v.idleSequence != a.sequence || v.session != Some(a.session)
    then (v, Ignored)
    else if v.idleDeadline.Some? && now < v.idleDeadline.value then
      (ScheduleIdle(v, closing, default, now), Rearmed)
    else
      (DropSession(v).(runtimeChanging := true, lastActivity := Some(now)), StopNow(a.session))
  }

  /** Commit of a prepared mutation: `next` is the new entry, or None when the server is removed. */
  function CommitEnter(v: Server, next: Option<ServerEntry>): (Server, Option<Session>) {
    var u := DropSession(v).(runtimeChanging := v.session.Some?);
    (if next.Some? then u.(entry := next.value) else u.(deleted := true), v.session)
  }

  function CommitDone(v: Server, now: int): Server {
    v.(runtimeChanging := false, mutating := false, lastActivity := Some(now))
  }

  function ShutdownEnter(v: Server, now: int): (Server, Option<Session>) {
    (DropSession(v).(runtimeChanging := v.session.Some?, lastActivity := Some(now)), v.session)
  }

  function ClearChanging(v: Server): Server {
    v.(runtimeChanging := false)
  }

  function ReleaseUse(v: Server, closing: bool, default: int, now: int): Server {
    var u := AcquireAbandon(v, now);
    if u.active == 0 then ScheduleIdle(u, closing, default, now) else u
  }

  /** The busy test and mark of PrepareServerMutation for one server. */
  function PrepareMark(v: Server): (Server, bool) {
    if v.deleted || v.active > 0 || v.mutating || v.runtimeChanging then (v, false)
    else (v.(mutating := true), true)
  }

  // ---------------------------------------------------------------------------------------------
  // When each operation is let in, and what it is told otherwise
  // ---------------------------------------------------------------------------------------------

  /** Another operation or a configuration change has the server. */
  predicate Engaged(v: Server) {
    v.mutating || v.runtimeChanging
  }

  /** The installed session can be used: it has not exited and its contract is as before. */
  predicate Serves(v: Server, exited: bool, changed: bool) {
    v.session.Some? && !exited && !changed
  }

  /** A session in use whose contract has changed may not be replaced. */
  predicate HeldBack(v: Server, changed: bool) {
    v.session.Some? && changed && v.active > 0
  }

  /** The fields that no admission changes. */
  predicate SameServer(v: Server, u: Server) {
    u.entry == v.entry && u.mutating == v.mutating && u.deleted == v.deleted
  }

  /**
   Acquire is let in on every server that is there, not engaged, not disabled and not held back, on a manual
   one only if its session serves. Then it counts as one use more, of the session that serves or of a new one.
   */
  lemma AcquireMeans(v: Server, exited: bool, changed1: bool, changed2: bool, now: int)
    ensures var (u, r) := AcquireEnter(v, exited, changed1, changed2, now);
            var serves, free := Serves(v, exited, changed2), !v.deleted && !Engaged(v);
            && (r.Admitted? <==> free && v.entry.mode != Disabled && !HeldBack(v, changed1) && (v.entry.mode == Manual ==> serves))
            && (r.Admitted? ==>
                  && u.active == v.active + 1 && u.session == r.session && u.lastActivity == Some(now) && u.idleTimer.None?
                  && r.session == (if serves then v.session else None) && r.stale == (if serves then None else v.session))
            && (r.Refused? ==>
                  && u.active == v.active && u.session == (if r.stale.Some? then None else v.session)
                  && r.refusal == (if v.deleted then ServerNotFound
                                   else if Engaged(v) then ServerBusy(v.active)
                                   else if v.entry.mode == Disabled then ServerDisabled
                                   else if HeldBack(v, changed1) then ServerBusy(v.active)
                                   else ManualServerStopped)
                  && r.stale == (if r.refusal == ManualServerStopped then v.session else None))
            && SameServer(v, u) && u.runtimeChanging == v.runtimeChanging
  {
  }

  /** Start is let in on every server that is there, not engaged, not disabled and not held back; it leaves a session that serves alone. */
  lemma StartMeans(v: Server, exited: bool, changed1: bool, changed2: bool)
    ensures var (u, r) := StartEnter(v, exited, changed1, changed2);
            var serves := Serves(v, exited, changed2);
            && (r.Admitted? <==> !v.deleted && !Engaged(v) && v.entry.mode != Disabled && !HeldBack(v, changed1))
            && (r.Admitted? && serves ==> u == v && r == Admitted(None, v.session))
            && (r.Admitted? && !serves ==> u.session.None? && u.runtimeChanging && u.idleTimer.None? && r == Admitted(v.session, None))
            && (r.Refused? ==>
                  && u == v && r.stale.None?
                  && r.refusal == (if v.deleted then ServerNotFound else if Engaged(v) then ServerBusy(v.active)
                                   else if v.entry.mode == Disabled then ServerDisabled else ServerBusy(v.active)))
            && u.active == v.active && SameServer(v, u)
  {
  }

  /** Stop takes the session of every unused server that is there, not engaged and not always on. */
  lemma StopMeans(v: Server, now: int)
    ensures var (u, r) := StopEnter(v, now);
            && (r.Admitted? <==> !v.deleted && v.entry.mode != AlwaysOn && v.active <= 0 && !Engaged(v))
            && (r.Admitted? ==> r.stale == v.session && u.session.None? && u.idleTimer.None? && (u.runtimeChanging <==> v.session.Some?))
            && (r.Refused? ==>
                  u == v && r.refusal == (if v.deleted then ServerNotFound
                                          else if v.entry.mode == AlwaysOn then AlwaysOnMaintained else ServerBusy(v.active)))
            && u.active == v.active && SameServer(v, u)
  {
  }

  /** Restart takes the session of every unused server that is not engaged. */
  lemma RestartMeans(v: Server, now: int)
    ensures var (u, r) := RestartEnter(v, now);
            && (r.Admitted? <==> v.active <= 0 && !Engaged(v))
            && (r.Admitted? ==> r.stale == v.session && u.session.None? && u.idleTimer.None? && u.runtimeChanging)
            && (r.Refused? ==> u == v && r.refusal == ServerBusy(v.active))
            && u.active == v.active && SameServer(v, u)
  {
  }

  /** A watcher removes the session it watches exactly if the server still has it. */
  lemma WatchMeans(v: Server, generation: nat, session: Session, now: int)
    ensures var (u, removed) := WatchEnter(v, generation, session, now);
            && (removed <==> !v.deleted && v.generation == generation && v.session == Some(session))
            && (removed ==> u.session.None? && u.generation > v.generation && u.idleTimer.None?)
            && (!removed ==> u == v)
            && u.active == v.active && u.runtimeChanging == v.runtimeChanging && SameServer(v, u)
  {
  }

  /** A prepare marks exactly the servers that are there, unused and not engaged, and changes nothing else. */
  lemma MarkMeans(v: Server)
    ensures var (u, marked) := PrepareMark(v);
            && (marked <==> !v.deleted && v.active <= 0 && !Engaged(v))
            && u == v.(mutating := v.mutating || marked)
  {
  }

  /** A published session is installed in a new generation, and the change is over. */
  lemma PublishMeans(v: Server, connected: Session, closing: bool, default: int, now: int)
    ensures var u := PublishSession(v, connected, closing, default, now);
            && u.session == Some(connected) && u.generation > v.generation && !u.runtimeChanging && u.lastActivity == Some(now)
            && u.active == v.active && SameServer(v, u)
  {
  }

  /** The server's fields, updated in place under its mutex. */
  class ServerState {
    var entry: ServerEntry
    var session: Option<Session>
    var active: int
    var lastActivity: Option<int>
    var idleTimer: Option<Arming>
    var idleDeadline: Option<int>
    var idleSequence: nat
    var generation: nat
    var mutating: bool
    var runtimeChanging: bool
    var deleted: bool

    constructor (entry: ServerEntry)
      ensures View() == NewServer(entry)
    {
      this.entry := entry;
      session, active, lastActivity := None, 0, None;
      idleTimer, idleDeadline, idleSequence, generation := None, None, 0, 0;
      mutating, runtimeChanging, deleted := false, false, false;
    }

    function View(): Server
      reads this
    {
      Server(entry, session, active, lastActivity, idleTimer, idleDeadline, idleSequence, generation,
             mutating, runtimeChanging, deleted)
    }

    method CancelIdleLocked()
      modifies this
      ensures View() == CancelIdle(old(View()))
    {
      idleSequence := idleSequence + 1;
      if idleTimer.Some? {
        idleTimer := None;
      }
      idleDeadline := None;
    }

    method ScheduleIdleLocked(closing: bool, default: int, now: int)
      modifies this
      ensures View() == ScheduleIdle(old(View()), closing, default, now)
    {
      CancelIdleLocked();
      if closing || deleted || entry.mode != Managed || active != 0 || session.None? || mutating || runtimeChanging {
        return;
      }
      var idle := entry.IdleTimeout(default);
      if idle <= 0 {
        return;
      }
      if lastActivity.None? {
        lastActivity := Some(now);
      }
      var deadline := lastActivity.value + idle;
      idleSequence := idleSequence + 1;
      idleDeadline := Some(deadline);
      idleTimer := Some(Arming(generation, idleSequence, session.value, deadline));
    }

    method DropLocked() returns (dropped: Option<Session>)
      modifies this
      ensures View() == DropSession(old(View()))
      ensures dropped == old(session)
    {
      dropped := session;
      session := None;
      generation := generation + 1;
      CancelIdleLocked();
    }

    method EnterAcquire(exited: bool, changed1: bool, changed2: bool, now: int) returns (r: Admission)
      modifies this
      ensures (View(), r) == AcquireEnter(old(View()), exited, changed1, changed2, now)
    {
      if deleted {
        return Refused(ServerNotFound, None);
      }
      if mutating || runtimeChanging {
        return Refused(ServerBusy(active), None);
      }
      if entry.mode == Disabled {
        return Refused(ServerDisabled, None);
      }
      if session.Some? && changed1 && active > 0 {
        return Refused(ServerBusy(active), None);
      }
      var stale: Option<Session> := None;
      if session.Some? && (exited || changed2) {
        stale := DropLocked();
      }
      if entry.mode == Manual && session.None? {
        return Refused(ManualServerStopped, stale);
      }
      CancelIdleLocked();
      active := active + 1;
      lastActivity := Some(now);
      r := Admitted(stale, session);
    }

    method AbandonAcquire(now: int)
      modifies this
      ensures View() == AcquireAbandon(old(View()), now)
    {
      if active > 0 {
        active := active - 1;
      }
      lastActivity := Some(now);
    }

    method InstallAcquired(connected: Session, now: int) returns (installed: bool)
      modifies this
      ensures (View(), installed) == AcquireInstall(old(View()), connected, now)
    {
      if deleted || mutating || runtimeChanging {
        AbandonAcquire(now);
        return false;
      }
      session := Some(connected);
      generation := generation + 1;
      lastActivity := Some(now);
      installed := true;
    }

    method EnterStart(exited: bool, changed1: bool, changed2: bool) returns (r: Admission)
      modifies this
      ensures (View(), r) == StartEnter(old(View()), exited, changed1, changed2)
    {
      if deleted {
        return Refused(ServerNotFound, None);
      }
      if mutating || runtimeChanging {
        return Refused(ServerBusy(active), None);
      }
      if entry.mode == Disabled {
        return Refused(ServerDisabled, None);
      }
      if session.Some? && changed1 && active > 0 {
        return Refused(ServerBusy(active), None);
      }
      var stale: Option<Session> := None;
      if session.Some? && (exited || changed2) {
        stale := DropLocked();
      }
      if session.Some? {
        return Admitted(stale, session);
      }
      runtimeChanging := true;
      CancelIdleLocked();
      r := Admitted(stale, None);
    }

    method Publish(connected: Session, closing: bool, default: int, now: int)
      modifies this
      ensures View() == PublishSession(old(View()), connected, closing, default, now)
    {
      session := Some(connected);
      generation := generation + 1;
      runtimeChanging := false;
      lastActivity := Some(now);
      if active == 0 {
        ScheduleIdleLocked(closing, default, now);
      }
    }

    method EnterStop(now: int) returns (r: Admission)
      modifies this
      ensures (View(), r) == StopEnter(old(View()), now)
    {
      if deleted {
        return Refused(ServerNotFound, None);
      }
      if entry.mode == AlwaysOn {
        return Refused(AlwaysOnMaintained, None);
      }
      if active > 0 || mutating || runtimeChanging {
        return Refused(ServerBusy(active), None);
      }
      var current := DropLocked();
      runtimeChanging := current.Some?;
      lastActivity := Some(now);
      r := Admitted(current, None);
    }

    method EnterRestart(now: int) returns (r: Admission)
      modifies this
      ensures (View(), r) == RestartEnter(old(View()), now)
    {
      if active > 0 || mutating || runtimeChanging {
        return Refused(ServerBusy(active), None);
      }
      var previous := DropLocked();
      runtimeChanging := true;
      lastActivity := Some(now);
      r := Admitted(previous, None);
    }

    method EnterWatch(armedGeneration: nat, watched: Session, now: int) returns (removed: bool)
      modifies this
      ensures (View(), removed) == WatchEnter(old(View()), armedGeneration, watched, now)
    {
      if deleted || generation != armedGeneration || session != Some(watched) {
        return false;
      }
      var _ := DropLocked();
      lastActivity := Some(now);
      removed := true;
    }

    method EnterIdle(a: Arming, closing: bool, default: int, now: int) returns (verdict: IdleVerdict)
      modifies this
      ensures (View(), verdict) == IdleEnter(old(View()), a, closing, default, now)
    {
      if || deleted || entry.mode != Managed || active != 0 || mutating || runtimeChanging
         || generation != a.generation || idleSequence != a.sequence || session != Some(a.session)
      {
        return Ignored;
      }
      if idleDeadline.Some? && now < idleDeadline.value {
        ScheduleIdleLocked(closing, default, now);
        return Rearmed;
      }
      var _ := DropLocked();
      runtimeChanging := true;
      lastActivity := Some(now);
      verdict := StopNow(a.session);
    }

    method EnterCommit(next: Option<ServerEntry>) returns (oldSession: Option<Session>)
      modifies this
      ensures (View(), oldSession) == CommitEnter(old(View()), next)
    {
      oldSession := DropLocked();
      runtimeChanging := oldSession.Some?;
      if next.Some? {
        entry := next.value;
      } else {
        deleted := true;
      }
    }

    method FinishCommit(now: int)
      modifies this
      ensures View() == CommitDone(old(View()), now)
    {
      runtimeChanging := false;
      mutating := false;
      lastActivity := Some(now);
    }

    method EnterShutdown(now: int) returns (current: Option<Session>)
      modifies this
      ensures (View(), current) == ShutdownEnter(old(View()), now)
    {
      current := DropLocked();
      runtimeChanging := current.Some?;
      lastActivity := Some(now);
    }

    method FinishChange(now: int)
      modifies this
      ensures View() == ChangeDone(old(View()), now)
    {
      runtimeChanging := false;
      lastActivity := Some(now);
    }

    method FinishChanging()
      modifies this
      ensures View() == ClearChanging(old(View()))
    {
      runtimeChanging := false;
    }

    method Release(closing: bool, default: int, now: int)
      modifies this
      ensures View() == ReleaseUse(old(View()), closing, default, now)
    {
      AbandonAcquire(now);
      if active == 0 {
        ScheduleIdleLocked(closing, default, now);
      }
    }

    method MarkForMutation() returns (marked: bool)
      modifies this
      ensures (View(), marked) == PrepareMark(old(View()))
    {
      if deleted || active > 0 || mutating || runtimeChanging {
        return false;
      }
      mutating := true;
      marked := true;
    }
  }
}
