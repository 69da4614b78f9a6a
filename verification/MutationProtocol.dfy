/**
 The two-phase configuration mutation over all servers of the routed lifecycle service.

 A mutation first marks every affected server (prepare), and then either replaces them one after the
 other (commit) or unmarks them (abort). Each mark and unmark is one critical section of one server,
 so everything else that happens on the servers may come in between. Prepare and commit of different
 mutations do not overlap, because the state coordinator serialises them; the abort that shutdown
 performs may come at any time.
 */
module MutationProtocol {
  import opened Common
  import opened ServerConfig
  import opened ServerSections
  import opened LifecycleMachine

  type Config = map<string, ServerEntry>

  /** A server object: the id it was created for, and a number that tells apart objects of the same id. */
  datatype Object = Object(id: string, epoch: nat)

  /** Servers of the old configuration that the new one removes or changes in a way that needs a new runtime. */
  function AffectedIds(current: Config, next: Config): set<string> {
    set id | id in current && (id !in next || RuntimeAffectingChange(current[id], next[id]))
  }

  datatype Mutation = Mutation(current: Config, next: Config)

  /** A prepare call under way: marking the affected servers, or undoing its marks after a busy one. */
  datatype Prepare =
    | Idle
    | Marking(m: Mutation, todo: set<string>, done: set<string>)
    | RollingBack(done: set<string>)

  datatype Prepared = Prepared(m: Mutation, ids: set<string>)

  /** What the service itself records: the server table, and how far each mutation has come. */
  datatype Books = Books(
    states: map<string, Object>,                           // the server table
    objects: set<Object>,                                  // every server object ever created
    epoch: nat,
    prepare: Prepare,
    pending: Option<Prepared>,
    aborting: set<string>,                                 // taken by an abort, still to be unmarked
    committing: map<Object, Option<ServerEntry>>,          // taken by a commit, not settled yet
    target: Config,                                        // the configuration last committed
    truthful: bool,                                        // every prepare was given the ids really in the table
    exact: bool)                                           // every prepare was given the configuration last committed

  datatype Service = Service(books: Books, worlds: map<Object, World>)

  datatype Move =
    | Local(o: Object, e: Event)
    | BeginPrepare(m: Mutation)
    | PrepareOne(id: string)
    | FinishPrepare
    | RollbackOne(id: string)
    | EndRollback
    | TakeAbort
    | AbortOne(id: string)
    | TakeCommit(defaultIdle: int, now: int)
    | RemoveId(o: Object)

  predicate MarkEvent(e: Event) {
    e.SetMark? || e.SetPending? || e.SetCommitting? || e.ClearMark?
  }

  predicate SettlesCommit(w: World, e: Event) {
    e.Settle? && w.phase.Settling? && w.phase.op.OpCommit?
  }

  /** The object is the one its id names in the server table. */
  predicate Current(b: Books, o: Object) {
    o.id in b.states && b.states[o.id] == o
  }

  /** Steps of the operations on one server; a commit works on the servers that it took, and settles a removal last. */
  predicate LocalAllowed(v: Service, o: Object, e: Event) {
    && o in v.worlds && !MarkEvent(e) && Enabled(v.worlds[o], e)
    && (e.Take? && e.op.OpCommit? ==> o in v.books.committing && e.op.next == v.books.committing[o])
    && (SettlesCommit(v.worlds[o], e) && v.worlds[o].phase.op.next.None? ==> !Current(v.books, o))
  }

  predicate RemoveAllowed(v: Service, o: Object) {
    && Current(v.books, o) && o in v.worlds
    && v.worlds[o].phase.Settling? && v.worlds[o].phase.op == OpCommit(None)
  }

  predicate Allowed(v: Service, move: Move) {
    var b := v.books;
    match move
    case Local(o, e) => LocalAllowed(v, o, e)
    case BeginPrepare(_) => b.prepare.Idle? && b.pending.None? && b.committing == map[]
    case PrepareOne(id) => b.prepare.Marking? && id in b.prepare.todo
    case FinishPrepare => b.prepare.Marking? && b.prepare.todo == {}
    case RollbackOne(id) => b.prepare.RollingBack? && id in b.prepare.done
    case EndRollback => b.prepare.RollingBack? && b.prepare.done == {}
    case TakeAbort => b.prepare.Idle? && b.pending.Some?
    case AbortOne(id) => id in b.aborting
    case TakeCommit(_, _) => b.prepare.Idle? && b.pending.Some?
    case RemoveId(o) => RemoveAllowed(v, o)
  }

  // How each move changes the books.

  function CommitSettled(b: Books, o: Object): Books {
    b.(committing := b.committing - {o})
  }

  function PrepareBegun(b: Books, m: Mutation): Books {
    b.(prepare := Marking(m, AffectedIds(m.current, m.next), {}),
       truthful := b.truthful && m.current.Keys == b.states.Keys,
       exact := b.exact && m.current == b.target)
  }

  function IdSkipped(b: Books, id: string): Books
    requires b.prepare.Marking?
  {
    b.(prepare := b.prepare.(todo := b.prepare.todo - {id}))
  }

  function IdMarked(b: Books, id: string): Books
    requires b.prepare.Marking?
  {
    b.(prepare := b.prepare.(todo := b.prepare.todo - {id}, done := b.prepare.done + {id}))
  }

  function GivenUp(b: Books): Books
    requires b.prepare.Marking?
  {
    b.(prepare := RollingBack(b.prepare.done))
  }

  function PrepareFinished(b: Books): Books
    requires b.prepare.Marking?
  {
    b.(prepare := Idle, pending := Some(Prepared(b.prepare.m, b.prepare.done)))
  }

  function IdRolledBack(b: Books, id: string): Books
    requires b.prepare.RollingBack?
  {
    b.(prepare := RollingBack(b.prepare.done - {id}))
  }

  function AbortTaken(b: Books): Books
    requires b.pending.Some?
  {
    b.(pending := None, aborting := b.aborting + b.pending.value.ids)
  }

  function IdAborted(b: Books, id: string): Books {
    b.(aborting := b.aborting - {id})
  }

  /** The objects that a commit creates for ids the table does not have yet. */
  function Added(b: Books): set<Object>
    requires b.pending.Some?
  {
    set id | id in b.pending.value.m.next.Keys - b.states.Keys :: Object(id, b.epoch)
  }

  /** The servers of the pending mutation are to be replaced, and the table gains the new ones. */
  function CommitTaken(b: Books): Books
    requires b.pending.Some?
  {
    var next, ids := b.pending.value.m.next, b.pending.value.ids;
    b.(committing := map o | o in b.objects && Current(b, o) && o.id in ids ::
                       (if o.id in next then Some(next[o.id]) else None),
       states := b.states + map id | id in next.Keys - b.states.Keys :: Object(id, b.epoch),
       objects := b.objects + Added(b),
       epoch := b.epoch + 1,
       pending := None,
       target := next)
  }

  function IdRemoved(b: Books, o: Object): Books {
    b.(states := b.states - {o.id})
  }

  // How each move changes the servers.

  /** Unmarks the server an id names, if the table still has it. */
  function Unmark(v: Service, id: string): map<Object, World> {
    if id in v.books.states && v.books.states[id] in v.worlds && Enabled(v.worlds[v.books.states[id]], ClearMark)
    then v.worlds[v.books.states[id] := Next(v.worlds[v.books.states[id]], ClearMark)]
    else v.worlds
  }

  /** The bookkeeping marks of all servers with an id in the set; the servers themselves do not change. */
  function Remark(v: Service, ids: set<string>, mark: Mark): map<Object, World> {
    map o | o in v.worlds :: if Current(v.books, o) && o.id in ids then v.worlds[o].(mark := mark) else v.worlds[o]
  }

  function PrepareStep(v: Service, id: string): Service
    requires v.books.prepare.Marking? && id in v.books.prepare.todo
  {
    var b := v.books;
    if id !in b.states || b.states[id] !in v.worlds then Service(IdSkipped(b, id), v.worlds)
    else if Enabled(v.worlds[b.states[id]], SetMark) then
      Service(IdMarked(b, id), v.worlds[b.states[id] := Next(v.worlds[b.states[id]], SetMark)])
    else Service(GivenUp(b), v.worlds)
  }

  function CommitStep(v: Service, defaultIdle: int, now: int): Service
    requires v.books.pending.Some?
  {
    var next := v.books.pending.value.m.next;
    Service(CommitTaken(v.books),
            Remark(v, v.books.pending.value.ids, Committing)
              + map o | o in Added(v.books) :: Init(next[o.id], defaultIdle, now))
  }

  function LocalStep(v: Service, o: Object, e: Event): Service
    requires LocalAllowed(v, o, e)
  {
    Service(if SettlesCommit(v.worlds[o], e) then CommitSettled(v.books, o) else v.books,
            v.worlds[o := Next(v.worlds[o], e)])
  }

  function After(v: Service, move: Move): Service
    requires Allowed(v, move)
  {
    var b := v.books;
    match move
    case Local(o, e) => LocalStep(v, o, e)
    case BeginPrepare(m) => v.(books := PrepareBegun(b, m))
    case PrepareOne(id) => PrepareStep(v, id)
    case FinishPrepare => Service(PrepareFinished(b), Remark(v, b.prepare.done, Pending))
    case RollbackOne(id) => Service(IdRolledBack(b, id), Unmark(v, id))
    case EndRollback => v.(books := b.(prepare := Idle))
    case TakeAbort => v.(books := AbortTaken(b))
    case AbortOne(id) => Service(IdAborted(b, id), Unmark(v, id))
    case TakeCommit(defaultIdle, now) => CommitStep(v, defaultIdle, now)
    case RemoveId(o) => v.(books := IdRemoved(b, o))
  }

  // ---------------------------------------------------------------------------------------------
  // The invariant
  // ---------------------------------------------------------------------------------------------

  function DoneIds(b: Books): set<string> {
    if b.prepare.Idle? then {} else b.prepare.done
  }

  function PendingIds(b: Books): set<string> {
    (if b.pending.Some? then b.pending.value.ids else {}) + b.aborting
  }

  /** The mark that the bookkeeping of the mutations says a server has. */
  function DueMark(b: Books, o: Object): Mark {
    if o in b.committing then Committing
    else if Current(b, o) && o.id in DoneIds(b) then Preparing
    else if Current(b, o) && o.id in PendingIds(b) then Pending
    else Unmarked
  }

  ghost predicate TableSound(b: Books) {
    && (forall id :: id in b.states ==> b.states[id].id == id && b.states[id] in b.objects)
    && (forall o :: o in b.objects ==> o.epoch < b.epoch)
  }

  /** No server is counted twice among those being prepared, pending, aborted and committed. */
  ghost predicate SetsSound(b: Books) {
    && DoneIds(b) + PendingIds(b) <= b.states.Keys
    && DoneIds(b) !! PendingIds(b)
    && (b.pending.Some? ==> b.pending.value.ids !! b.aborting)
    && b.committing.Keys <= b.objects
    && (forall o :: o in b.committing && Current(b, o) ==> o.id !in DoneIds(b) + PendingIds(b))
  }

  /** What has been looked up so far is marked if it is known, and nothing is being replaced meanwhile. */
  ghost predicate PrepareSound(b: Books) {
    && (!b.prepare.Idle? ==> b.committing == map[] && b.pending.None?)
    && (b.prepare.Marking? ==>
          && b.prepare.todo <= AffectedIds(b.prepare.m.current, b.prepare.m.next)
          && b.prepare.done == (AffectedIds(b.prepare.m.current, b.prepare.m.next) - b.prepare.todo) * b.states.Keys)
    && (b.pending.Some? ==>
          && b.committing == map[]
          && b.pending.value.ids == AffectedIds(b.pending.value.m.current, b.pending.value.m.next) * b.states.Keys)
  }

  /** The table has the ids of the committed configuration, and besides only servers still to be removed. */
  ghost predicate GoalSound(b: Books) {
    && (b.truthful && b.prepare.Marking? ==> b.prepare.m.current.Keys == b.states.Keys)
    && (b.truthful && b.pending.Some? ==> b.pending.value.m.current.Keys == b.states.Keys)
    && (b.exact && b.prepare.Marking? ==> b.prepare.m.current == b.target)
    && (b.exact && b.pending.Some? ==> b.pending.value.m.current == b.target)
    && (forall o :: o in b.committing ==> b.committing[o] == if o.id in b.target then Some(b.target[o.id]) else None)
    && (b.truthful ==>
          && b.target.Keys <= b.states.Keys
          && forall id :: id in b.states.Keys - b.target.Keys ==>
               b.states[id] in b.committing && b.committing[b.states[id]].None?)
  }

  ghost predicate BooksSound(b: Books) {
    TableSound(b) && SetsSound(b) && PrepareSound(b) && GoalSound(b)
  }

  ghost predicate ServersSound(worlds: map<Object, World>) {
    forall o :: o in worlds ==> Right(worlds[o])
  }

  /** Every server carries the mark that the books say. */
  ghost predicate MarksAgree(b: Books, worlds: map<Object, World>) {
    worlds.Keys == b.objects && forall o :: o in worlds ==> worlds[o].mark == DueMark(b, o)
  }

  /** The holder of the server's token is a commit that has not settled yet. */
  predicate CommitPhase(p: Phase) {
    (p.Ready? || Midway(p)) && p.op.OpCommit?
  }

  /** Servers on which the commit is at work, and the entry each of them is to get. */
  ghost predicate CommitsAgree(b: Books, worlds: map<Object, World>) {
    forall o :: o in worlds && CommitPhase(worlds[o].phase) ==>
      o in b.committing && b.committing[o] == worlds[o].phase.op.next
  }

  ghost predicate SvcInv(v: Service) {
    && BooksSound(v.books) && ServersSound(v.worlds)
    && MarksAgree(v.books, v.worlds) && CommitsAgree(v.books, v.worlds)
  }

  function InitService(config: Config, defaultIdle: int, now: int): Service {
    var objects := set id | id in config :: Object(id, 0);
    Service(Books(map id | id in config :: Object(id, 0), objects, 1, Idle, None, {}, map[], config, true, true),
            map o | o in objects :: Init(config[o.id], defaultIdle, now))
  }

  lemma InitBooks(config: Config, defaultIdle: int, now: int)
    ensures var v := InitService(config, defaultIdle, now);
            BooksSound(v.books) && forall o :: DueMark(v.books, o) == Unmarked
  {
  }

  lemma InitServiceKeeps(config: Config, defaultIdle: int, now: int)
    ensures SvcInv(InitService(config, defaultIdle, now))
  {
    InitBooks(config, defaultIdle, now);
    var v := InitService(config, defaultIdle, now);
    forall o | o in v.worlds ensures Right(v.worlds[o]) {
      InitIsRight(config[o.id], defaultIdle, now);
    }
  }

  // ---------------------------------------------------------------------------------------------
  // Every move keeps the books
  // ---------------------------------------------------------------------------------------------

  lemma SettledBooks(b: Books, o: Object)
    requires BooksSound(b) && o in b.committing && (b.committing[o].None? ==> !Current(b, o))
    ensures BooksSound(CommitSettled(b, o))
    ensures forall x :: DueMark(CommitSettled(b, o), x) == if x == o then Unmarked else DueMark(b, x)
  {
  }

  lemma BegunBooks(b: Books, m: Mutation)
    requires BooksSound(b) && b.prepare.Idle? && b.pending.None? && b.committing == map[]
    ensures BooksSound(PrepareBegun(b, m))
    ensures forall x :: DueMark(PrepareBegun(b, m), x) == DueMark(b, x)
  {
  }

  lemma SkippedBooks(b: Books, id: string)
    requires BooksSound(b) && b.prepare.Marking? && id !in b.states
    ensures BooksSound(IdSkipped(b, id))
    ensures forall x :: DueMark(IdSkipped(b, id), x) == DueMark(b, x)
  {
  }

  lemma MarkedBooks(b: Books, id: string)
    requires BooksSound(b) && b.prepare.Marking? && id in b.prepare.todo && id in b.states
    requires DueMark(b, b.states[id]).Unmarked?
    ensures BooksSound(IdMarked(b, id))
    ensures forall x :: DueMark(IdMarked(b, id), x) == if x == b.states[id] then Preparing else DueMark(b, x)
  {
    assert id !in DoneIds(b) + PendingIds(b);
    var affected := AffectedIds(b.prepare.m.current, b.prepare.m.next);
    assert b.prepare.done + {id} == (affected - (b.prepare.todo - {id})) * b.states.Keys;
  }

  lemma GivenUpBooks(b: Books)
    requires BooksSound(b) && b.prepare.Marking?
    ensures BooksSound(GivenUp(b)) && forall x :: DueMark(GivenUp(b), x) == DueMark(b, x)
  {
  }

  lemma FinishedBooks(b: Books)
    requires BooksSound(b) && b.prepare.Marking? && b.prepare.todo == {}
    ensures BooksSound(PrepareFinished(b))
    ensures forall x :: DueMark(PrepareFinished(b), x) ==
                        if Current(b, x) && x.id in b.prepare.done then Pending else DueMark(b, x)
  {
  }

  lemma RolledBackBooks(b: Books, id: string)
    requires BooksSound(b) && b.prepare.RollingBack? && id in b.prepare.done
    ensures id in b.states && DueMark(b, b.states[id]) == Preparing
    ensures BooksSound(IdRolledBack(b, id))
    ensures forall x :: DueMark(IdRolledBack(b, id), x) == if x == b.states[id] then Unmarked else DueMark(b, x)
  {
    assert id in DoneIds(b);
  }

  lemma AbortTakenBooks(b: Books)
    requires BooksSound(b) && b.prepare.Idle? && b.pending.Some?
    ensures BooksSound(AbortTaken(b))
    ensures forall x :: DueMark(AbortTaken(b), x) == DueMark(b, x)
  {
  }

  lemma AbortedBooks(b: Books, id: string)
    requires BooksSound(b) && id in b.aborting
    ensures id in b.states && DueMark(b, b.states[id]) == Pending
    ensures BooksSound(IdAborted(b, id))
    ensures forall x :: DueMark(IdAborted(b, id), x) == if x == b.states[id] then Unmarked else DueMark(b, x)
  {
    assert id in PendingIds(b) && id in b.states;
  }

  lemma CommitTakenMarks(b: Books)
    requires BooksSound(b) && b.prepare.Idle? && b.pending.Some?
    ensures TableSound(CommitTaken(b)) && SetsSound(CommitTaken(b)) && PrepareSound(CommitTaken(b))
    ensures forall x :: x in b.objects ==>
              DueMark(CommitTaken(b), x) ==
                if Current(b, x) && x.id in b.pending.value.ids then Committing else DueMark(b, x)
    ensures forall x :: x in Added(b) ==> x !in b.objects && DueMark(CommitTaken(b), x) == Unmarked
  {
  }

  /** Whatever the new configuration does not name is among the servers that the commit removes. */
  lemma CommitTakenGoal(b: Books)
    requires BooksSound(b) && b.prepare.Idle? && b.pending.Some?
    ensures GoalSound(CommitTaken(b))
  {
    var next, c := b.pending.value.m.next, CommitTaken(b);
    if b.truthful {
      forall id | id in c.states.Keys - next.Keys
        ensures c.states[id] in c.committing && c.committing[c.states[id]].None?
      {
        assert id in b.states && id in AffectedIds(b.pending.value.m.current, next);
        assert Current(b, b.states[id]);
      }
    }
  }

  lemma RemovedBooks(b: Books, o: Object)
    requires BooksSound(b) && o in b.committing && b.committing[o].None? && Current(b, o)
    ensures BooksSound(IdRemoved(b, o))
    ensures forall x :: DueMark(IdRemoved(b, o), x) == DueMark(b, x)
  {
  }

  // ---------------------------------------------------------------------------------------------
  // Every move keeps the servers, and their agreement with the books
  // ---------------------------------------------------------------------------------------------

  lemma LocalMark(w: World, e: Event)
    requires Enabled(w, e) && !MarkEvent(e)
    ensures Next(w, e).mark == if SettlesCommit(w, e) then Unmarked else w.mark
    ensures var p := Next(w, e).phase;
            CommitPhase(p) ==>
              && !SettlesCommit(w, e)
              && ((e.Take? && e.op == p.op) || (CommitPhase(w.phase) && w.phase.op == p.op))
  {
  }

  /** One server is replaced by one that is sound and has the mark the new books say. */
  lemma OneServerKeeps(v: Service, o: Object, w: World, b: Books)
    requires SvcInv(v) && o in v.worlds && BooksSound(b) && b.objects == v.books.objects
    requires Right(w) && w.mark == DueMark(b, o)
    requires forall x :: x != o ==> DueMark(b, x) == DueMark(v.books, x)
    requires forall x :: x != o && x in v.books.committing ==> x in b.committing && b.committing[x] == v.books.committing[x]
    requires CommitPhase(w.phase) ==> o in b.committing && b.committing[o] == w.phase.op.next
    ensures SvcInv(Service(b, v.worlds[o := w]))
  {
    hide Right;
  }

  lemma LocalKeeps(v: Service, o: Object, e: Event)
    requires SvcInv(v) && LocalAllowed(v, o, e)
    ensures SvcInv(LocalStep(v, o, e))
  {
    hide Right;
    var w := v.worlds[o];
    StepKeepsRight(w, e);
    LocalMark(w, e);
    if SettlesCommit(w, e) {
      assert CommitPhase(w.phase);
      SettledBooks(v.books, o);
    }
    OneServerKeeps(v, o, Next(w, e), LocalStep(v, o, e).books);
  }

  lemma MarkStep(w: World)
    requires Right(w) && Enabled(w, SetMark)
    ensures var u := Next(w, SetMark); Right(u) && u.mark == Preparing && u.phase == w.phase
  {
    StepKeepsRight(w, SetMark);
  }

  lemma UnmarkStep(w: World)
    requires Right(w) && (w.mark.Preparing? || w.mark.Pending?)
    ensures Enabled(w, ClearMark)
    ensures var u := Next(w, ClearMark); Right(u) && u.mark == Unmarked && u.phase == w.phase
  {
    StepKeepsRight(w, ClearMark);
  }

  lemma PrepareOneKeeps(v: Service, id: string)
    requires SvcInv(v) && v.books.prepare.Marking? && id in v.books.prepare.todo
    ensures SvcInv(PrepareStep(v, id))
  {
    hide Right, SetsSound, PrepareSound, GoalSound, Next;
    var b := v.books;
    if id !in b.states {
      SkippedBooks(b, id);
      QuietKeeps(v, IdSkipped(b, id));
    } else if Enabled(v.worlds[b.states[id]], SetMark) {
      MarkStep(v.worlds[b.states[id]]);
      MarkedBooks(b, id);
      OneServerKeeps(v, b.states[id], Next(v.worlds[b.states[id]], SetMark), IdMarked(b, id));
    } else {
      GivenUpBooks(b);
      QuietKeeps(v, GivenUp(b));
    }
  }

  lemma RollbackOneKeeps(v: Service, id: string)
    requires SvcInv(v) && v.books.prepare.RollingBack? && id in v.books.prepare.done
    ensures SvcInv(Service(IdRolledBack(v.books, id), Unmark(v, id)))
  {
    hide Right;
    var o := v.books.states[id];
    RolledBackBooks(v.books, id);
    UnmarkStep(v.worlds[o]);
    OneServerKeeps(v, o, Next(v.worlds[o], ClearMark), IdRolledBack(v.books, id));
  }

  lemma AbortOneKeeps(v: Service, id: string)
    requires SvcInv(v) && id in v.books.aborting
    ensures SvcInv(Service(IdAborted(v.books, id), Unmark(v, id)))
  {
    hide Right;
    AbortedBooks(v.books, id);
    var o := v.books.states[id];
    UnmarkStep(v.worlds[o]);
    OneServerKeeps(v, o, Next(v.worlds[o], ClearMark), IdAborted(v.books, id));
  }

  lemma RemarkKeeps(w: World, mark: Mark)
    requires Right(w)
    requires (w.mark.Preparing? && mark.Pending?) || (w.mark.Pending? && mark.Committing?)
    ensures Right(w.(mark := mark))
  {
    StepKeepsRight(w, if mark.Pending? then SetPending else SetCommitting);
  }

  lemma FinishPrepareKeeps(v: Service)
    requires SvcInv(v) && v.books.prepare.Marking? && v.books.prepare.todo == {}
    ensures SvcInv(Service(PrepareFinished(v.books), Remark(v, v.books.prepare.done, Pending)))
  {
    hide Right;
    FinishedBooks(v.books);
    forall o | o in v.worlds && Current(v.books, o) && o.id in v.books.prepare.done
      ensures Right(v.worlds[o].(mark := Pending))
    {
      assert o.id in DoneIds(v.books);
      RemarkKeeps(v.worlds[o], Pending);
    }
  }

  lemma CommitServers(v: Service, defaultIdle: int, now: int)
    requires SvcInv(v) && v.books.prepare.Idle? && v.books.pending.Some?
    ensures ServersSound(CommitStep(v, defaultIdle, now).worlds)
  {
    var next, u := v.books.pending.value.m.next, CommitStep(v, defaultIdle, now);
    forall o | o in u.worlds ensures Right(u.worlds[o]) {
      if o in Added(v.books) {
        InitIsRight(next[o.id], defaultIdle, now);
      } else if Current(v.books, o) && o.id in v.books.pending.value.ids {
        assert o.id in PendingIds(v.books);
        RemarkKeeps(v.worlds[o], Committing);
      }
    }
  }

  lemma CommitObjects(b: Books)
    requires b.pending.Some?
    ensures CommitTaken(b).objects == b.objects + Added(b)
  {
  }

  lemma CommitMarks(v: Service, defaultIdle: int, now: int)
    requires SvcInv(v) && v.books.prepare.Idle? && v.books.pending.Some?
    ensures var u := CommitStep(v, defaultIdle, now); MarksAgree(u.books, u.worlds)
  {
    hide Right, ServersSound, BooksSound, CommitTaken, DueMark;
    CommitTakenMarks(v.books);
    CommitObjects(v.books);
    var u := CommitStep(v, defaultIdle, now);
    forall o | o in u.worlds ensures u.worlds[o].mark == DueMark(u.books, o) {
      if o !in Added(v.books) {
        assert v.worlds[o].mark == DueMark(v.books, o);
      }
    }
  }

  lemma CommitPhases(v: Service, defaultIdle: int, now: int)
    requires SvcInv(v) && v.books.prepare.Idle? && v.books.pending.Some?
    ensures var u := CommitStep(v, defaultIdle, now); CommitsAgree(u.books, u.worlds)
  {
    hide Right, ServersSound, MarksAgree, TableSound, SetsSound, GoalSound, CommitTaken;
    assert v.books.committing == map[];
    var u := CommitStep(v, defaultIdle, now);
    forall o | o in u.worlds ensures !CommitPhase(u.worlds[o].phase) {
      if o !in Added(v.books) {
        assert u.worlds[o].phase == v.worlds[o].phase;
      }
    }
  }

  lemma TakeCommitKeeps(v: Service, defaultIdle: int, now: int)
    requires SvcInv(v) && v.books.prepare.Idle? && v.books.pending.Some?
    ensures SvcInv(CommitStep(v, defaultIdle, now))
  {
    hide ServersSound, MarksAgree, CommitsAgree;
    CommitTakenMarks(v.books);
    CommitTakenGoal(v.books);
    CommitServers(v, defaultIdle, now);
    CommitMarks(v, defaultIdle, now);
    CommitPhases(v, defaultIdle, now);
  }

  lemma QuietKeeps(v: Service, b: Books)
    requires SvcInv(v) && BooksSound(b) && b.objects == v.books.objects && b.committing == v.books.committing
    requires forall x :: DueMark(b, x) == DueMark(v.books, x)
    ensures SvcInv(v.(books := b))
  {
    hide Right;
  }

  lemma RemoveIdKeeps(v: Service, o: Object)
    requires SvcInv(v) && RemoveAllowed(v, o)
    ensures SvcInv(v.(books := IdRemoved(v.books, o)))
  {
    assert CommitPhase(v.worlds[o].phase);
    RemovedBooks(v.books, o);
    QuietKeeps(v, IdRemoved(v.books, o));
  }

  lemma BeginPrepareKeeps(v: Service, m: Mutation)
    requires SvcInv(v) && Allowed(v, BeginPrepare(m))
    ensures SvcInv(v.(books := PrepareBegun(v.books, m)))
  {
    hide Right;
    BegunBooks(v.books, m);
    QuietKeeps(v, PrepareBegun(v.books, m));
  }

  lemma EndRollbackKeeps(v: Service)
    requires SvcInv(v) && Allowed(v, EndRollback)
    ensures SvcInv(v.(books := v.books.(prepare := Idle)))
  {
    hide Right;
    QuietKeeps(v, v.books.(prepare := Idle));
  }

  lemma TakeAbortKeeps(v: Service)
    requires SvcInv(v) && Allowed(v, TakeAbort)
    ensures SvcInv(v.(books := AbortTaken(v.books)))
  {
    hide Right;
    AbortTakenBooks(v.books);
    QuietKeeps(v, AbortTaken(v.books));
  }

  /** Every move of the service keeps the whole invariant. */
  lemma MoveKeeps(v: Service, move: Move)
    requires SvcInv(v) && Allowed(v, move)
    ensures SvcInv(After(v, move))
  {
    hide SvcInv;
    match move
    case Local(o, e) => LocalKeeps(v, o, e);
    case BeginPrepare(m) => BeginPrepareKeeps(v, m);
    case PrepareOne(id) => PrepareOneKeeps(v, id);
    case FinishPrepare => FinishPrepareKeeps(v);
    case RollbackOne(id) => RollbackOneKeeps(v, id);
    case EndRollback => EndRollbackKeeps(v);
    case TakeAbort => TakeAbortKeeps(v);
    case AbortOne(id) => AbortOneKeeps(v, id);
    case TakeCommit(defaultIdle, now) => TakeCommitKeeps(v, defaultIdle, now);
    case RemoveId(o) => RemoveIdKeeps(v, o);
  }

  // ---------------------------------------------------------------------------------------------
  // Every run of the service
  // ---------------------------------------------------------------------------------------------

  predicate SvcRun(config: Config, defaultIdle: int, now: int, vs: seq<Service>, moves: seq<Move>) {
    && |vs| == |moves| + 1
    && vs[0] == InitService(config, defaultIdle, now)
    && forall i :: 0 <= i < |moves| ==> Allowed(vs[i], moves[i]) && vs[i + 1] == After(vs[i], moves[i])
  }

  lemma {:induction false} SvcRunKeeps(config: Config, defaultIdle: int, now: int, vs: seq<Service>, moves: seq<Move>, i: nat)
    requires SvcRun(config, defaultIdle, now, vs, moves) && i < |vs|
    ensures SvcInv(vs[i])
    decreases i
  {
    hide SvcInv, After, Allowed, InitService;
    if i == 0 {
      InitServiceKeeps(config, defaultIdle, now);
    } else {
      SvcRunKeeps(config, defaultIdle, now, vs, moves, i - 1);
      MoveKeeps(vs[i - 1], moves[i - 1]);
    }
  }

  /** The server is marked on behalf of a mutation that the service still has on its books. */
  predicate Reserved(b: Books, o: Object) {
    o in b.committing || (Current(b, o) && o.id in DoneIds(b) + PendingIds(b))
  }

  lemma MarkedIffReserved(v: Service, o: Object)
    requires SvcInv(v) && o in v.worlds
    ensures v.worlds[o].server.mutating <==> Reserved(v.books, o)
    ensures v.worlds[o].server.mutating ==> v.worlds[o].server.active == 0 && v.worlds[o].leases.live == {}
  {
    hide Right, BooksSound, CommitsAgree;
    MarkedIsFree(v.worlds[o]);
  }

  lemma MarkedIsFree(w: World)
    requires Right(w)
    ensures w.server.mutating <==> !w.mark.Unmarked?
    ensures w.server.mutating ==> w.server.active == 0 && w.leases.live == {}
    ensures w.phase.Granted? ==> !w.server.mutating
  {
  }

  /**
   In every run, exactly the reserved servers are marked, and they are free of leases. So a prepare
   that failed has restored every flag once its rollback is done, as has an abort and a commit.
   */
  lemma MarksAreExact(config: Config, defaultIdle: int, now: int, vs: seq<Service>, moves: seq<Move>, i: nat, o: Object)
    requires SvcRun(config, defaultIdle, now, vs, moves) && i < |vs| && o in vs[i].worlds
    ensures var w, b := vs[i].worlds[o], vs[i].books;
            && (w.server.mutating <==> Reserved(b, o))
            && (w.server.mutating ==> w.server.active == 0 && w.leases.live == {})
            && (b.prepare.Idle? && b.pending.None? && b.aborting == {} && b.committing == map[] ==> !w.server.mutating)
  {
    hide SvcInv, After, Allowed, InitService;
    SvcRunKeeps(config, defaultIdle, now, vs, moves, i);
    MarkedIffReserved(vs[i], o);
  }

  /** A prepare that succeeds has marked exactly the affected servers the table knows. */
  lemma PrepareIsAllOrNothing(config: Config, defaultIdle: int, now: int, vs: seq<Service>, moves: seq<Move>, i: nat)
    requires SvcRun(config, defaultIdle, now, vs, moves) && i < |moves| && moves[i].FinishPrepare?
    ensures var b, m := vs[i + 1].books, vs[i].books.prepare.m;
            && b.pending.Some? && b.pending.value.m == m
            && (forall id :: id in b.pending.value.ids <==>
                  && id in b.states && id in m.current
                  && (id in m.next ==>
                        || m.next[id].name != m.current[id].name || m.next[id].mode != m.current[id].mode
                        || m.next[id].transport != m.current[id].transport || m.next[id].environment != m.current[id].environment
                        || m.next[id].runtime != m.current[id].runtime))
            && forall id :: id in b.pending.value.ids ==>
                 && b.states[id] in vs[i + 1].worlds
                 && vs[i + 1].worlds[b.states[id]].server.mutating
                 && vs[i + 1].worlds[b.states[id]].leases.live == {}
  {
    hide Right;
    SvcRunKeeps(config, defaultIdle, now, vs, moves, i);
    SvcRunKeeps(config, defaultIdle, now, vs, moves, i + 1);
    var b := vs[i + 1].books;
    forall id | id in b.pending.value.ids
      ensures b.states[id] in vs[i + 1].worlds && Current(b, b.states[id])
      ensures vs[i + 1].worlds[b.states[id]].server.mutating && vs[i + 1].worlds[b.states[id]].leases.live == {}
    {
      assert id in b.states;
      MarkedIffReserved(vs[i + 1], b.states[id]);
    }
  }

  lemma GrantUnreserved(v: Service, o: Object)
    requires SvcInv(v) && o in v.worlds && v.worlds[o].phase.Granted?
    ensures !Reserved(v.books, o)
  {
    hide Right, BooksSound, CommitsAgree;
    MarkedIffReserved(v, o);
    MarkedIsFree(v.worlds[o]);
  }

  /** No lease is granted on a reserved server. */
  lemma NoLeaseWhileReserved(config: Config, defaultIdle: int, now: int, vs: seq<Service>, moves: seq<Move>, i: nat)
    requires SvcRun(config, defaultIdle, now, vs, moves) && i < |moves| && moves[i].Local? && moves[i].e.Grant?
    ensures !Reserved(vs[i].books, moves[i].o)
  {
    hide SvcInv, After, InitService;
    SvcRunKeeps(config, defaultIdle, now, vs, moves, i);
    GrantUnreserved(vs[i], moves[i].o);
  }

  lemma GoalReached(b: Books)
    requires GoalSound(b) && b.truthful && b.committing == map[]
    ensures b.states.Keys == b.target.Keys
  {
    assert b.states.Keys - b.target.Keys == {};
  }

  /** Once a commit has settled every server it took, the table is keyed by the configuration it committed. */
  lemma CommitReachesGoal(config: Config, defaultIdle: int, now: int, vs: seq<Service>, moves: seq<Move>, i: nat)
    requires SvcRun(config, defaultIdle, now, vs, moves) && i < |vs|
    requires vs[i].books.truthful && vs[i].books.committing == map[]
    ensures vs[i].books.states.Keys == vs[i].books.target.Keys
  {
    hide Right, After, Allowed, InitService;
    SvcRunKeeps(config, defaultIdle, now, vs, moves, i);
    GoalReached(vs[i].books);
  }

  /** A commit that removes a server takes its id out of the table, no other, and can then settle. */
  lemma RemovalCanFinish(v: Service, o: Object, touch: bool)
    requires Allowed(v, RemoveId(o))
    ensures var u := After(v, RemoveId(o));
            && u.worlds == v.worlds && u.books.states.Keys == v.books.states.Keys - {o.id}
            && (forall id :: id in u.books.states ==> u.books.states[id] == v.books.states[id])
            && Allowed(u, Local(o, Settle(touch))) && o !in After(u, Local(o, Settle(touch))).books.committing
  {
  }

  // ---------------------------------------------------------------------------------------------
  // The servers run the committed configuration
  // ---------------------------------------------------------------------------------------------

  /** Every server that no commit is at work on has the entry of the configuration last committed, as far as its runtime goes. */
  ghost predicate EntriesSound(v: Service) {
    v.books.exact && v.books.truthful ==>
      forall o :: o in v.worlds && Current(v.books, o) && o.id in v.books.target && o !in v.books.committing ==>
        SameRuntime(v.worlds[o].server.entry, v.books.target[o.id])
  }

  lemma CommittedEntry(v: Service, o: Object, e: Event)
    requires SvcInv(v) && LocalAllowed(v, o, e) && SettlesCommit(v.worlds[o], e) && o.id in v.books.target
    ensures SameRuntime(v.worlds[o].server.entry, v.books.target[o.id])
    ensures Next(v.worlds[o], e).server.entry == v.worlds[o].server.entry
  {
    hide Inv, EntriesAgree, ModesHold, TimerWaits, TableSound, SetsSound, PrepareSound, MarksAgree;
    assert CommitPhase(v.worlds[o].phase);
  }

  lemma LocalEntry(v: Service, o: Object, e: Event)
    requires SvcInv(v) && LocalAllowed(v, o, e) && o !in v.books.committing
    ensures SameRuntime(Next(v.worlds[o], e).server.entry, v.worlds[o].server.entry)
  {
    hide Right, Moved, BooksSound, MarksAgree;
    EveryStepMoves(v.worlds[o], e);
    assert CommitPhase(v.worlds[o].phase) ==> o in v.books.committing;
  }

  lemma LocalKeepsEntries(v: Service, o: Object, e: Event)
    requires SvcInv(v) && EntriesSound(v) && LocalAllowed(v, o, e)
    ensures EntriesSound(LocalStep(v, o, e))
  {
    hide Right, Next, SvcInv, Enabled;
    var u := LocalStep(v, o, e);
    if o !in v.books.committing {
      LocalEntry(v, o, e);
    } else if SettlesCommit(v.worlds[o], e) && o.id in v.books.target {
      CommittedEntry(v, o, e);
    }
  }

  /** What the commit leaves alone is the same in the old configuration and in the new one. */
  lemma UntouchedEntry(b: Books, id: string)
    requires BooksSound(b) && b.prepare.Idle? && b.pending.Some? && b.exact && b.truthful
    requires id in b.states && id in b.pending.value.m.next && id !in b.pending.value.ids
    ensures id in b.target && SameRuntime(b.target[id], b.pending.value.m.next[id])
  {
    GoalReached(b);
  }

  lemma CommitKeepsEntries(v: Service, defaultIdle: int, now: int)
    requires SvcInv(v) && EntriesSound(v) && v.books.prepare.Idle? && v.books.pending.Some?
    ensures EntriesSound(CommitStep(v, defaultIdle, now))
  {
    hide Right, PrepareSound, SetsSound;
    var b, u := v.books, CommitStep(v, defaultIdle, now);
    var next := b.pending.value.m.next;
    assert b.committing == map[] by { NothingCommitting(b); }
    if u.books.exact && u.books.truthful {
      forall o | o in u.worlds && Current(u.books, o) && o.id in next && o !in u.books.committing
        ensures SameRuntime(u.worlds[o].server.entry, next[o.id])
      {
        if o !in Added(b) {
          assert o in v.worlds && o in b.objects && Current(b, o);
          UntouchedEntry(b, o.id);
        }
      }
    }
  }

  lemma NothingCommitting(b: Books)
    requires PrepareSound(b) && b.pending.Some?
    ensures b.committing == map[]
  {
  }

  /** Moves that take the mark from a server, or put it there, leave its entry alone. */
  lemma MarksKeepEntries(w: World, e: Event)
    requires Enabled(w, e) && (e.SetMark? || e.ClearMark?)
    ensures Next(w, e).server.entry == w.server.entry
  {
  }

  lemma QuietMovesKeepEntries(v: Service, move: Move)
    requires EntriesSound(v) && Allowed(v, move) && !move.Local? && !move.TakeCommit?
    ensures EntriesSound(After(v, move))
  {
    hide Next, Enabled;
    if move.PrepareOne? && move.id in v.books.states && v.books.states[move.id] in v.worlds {
      var w := v.worlds[v.books.states[move.id]];
      if Enabled(w, SetMark) {
        MarksKeepEntries(w, SetMark);
      }
    }
    if (move.RollbackOne? || move.AbortOne?) && move.id in v.books.states && v.books.states[move.id] in v.worlds {
      var w := v.worlds[v.books.states[move.id]];
      if Enabled(w, ClearMark) {
        MarksKeepEntries(w, ClearMark);
      }
    }
  }

  lemma MoveKeepsEntries(v: Service, move: Move)
    requires SvcInv(v) && EntriesSound(v) && Allowed(v, move)
    ensures EntriesSound(After(v, move))
  {
    hide SvcInv, EntriesSound;
    match move
    case Local(o, e) => LocalKeepsEntries(v, o, e);
    case TakeCommit(defaultIdle, now) => CommitKeepsEntries(v, defaultIdle, now);
    case _ => QuietMovesKeepEntries(v, move);
  }

  lemma {:induction false} SvcRunKeepsEntries(config: Config, defaultIdle: int, now: int, vs: seq<Service>, moves: seq<Move>, i: nat)
    requires SvcRun(config, defaultIdle, now, vs, moves) && i < |vs|
    ensures EntriesSound(vs[i])
    decreases i
  {
    hide SvcInv, After, Allowed, EntriesSound;
    if i == 0 {
      InitEntries(config, defaultIdle, now);
    } else {
      SvcRunKeeps(config, defaultIdle, now, vs, moves, i - 1);
      SvcRunKeepsEntries(config, defaultIdle, now, vs, moves, i - 1);
      MoveKeepsEntries(vs[i - 1], moves[i - 1]);
    }
  }

  lemma InitEntries(config: Config, defaultIdle: int, now: int)
    ensures EntriesSound(InitService(config, defaultIdle, now))
  {
  }

  lemma InstalledIsRight(v: Service, o: Object)
    requires SvcInv(v) && o in v.worlds && v.worlds[o].server.session.Some?
    ensures ConnectedRightly(v.worlds[o], v.worlds[o].server.session.value)
  {
    hide Inv, BooksSound, MarksAgree, CommitsAgree, TimerWaits, ModesHold;
  }

  /**
   In every run of the service a running session was connected with the runtime that its server's entry
   names; and when no commit is at work, that is the entry of the configuration last committed, if every
   prepare was given the configuration before.
   */
  lemma SessionsRunCommittedConfig(config: Config, defaultIdle: int, now: int, vs: seq<Service>, moves: seq<Move>, i: nat, o: Object)
    requires SvcRun(config, defaultIdle, now, vs, moves) && i < |vs| && o in vs[i].worlds
    ensures var b, w := vs[i].books, vs[i].worlds[o];
            && (w.server.session.Some? ==> ConnectedRightly(w, w.server.session.value))
            && (b.exact && b.truthful && b.committing == map[] && Current(b, o) ==>
                  o.id in b.target && SameRuntime(w.server.entry, b.target[o.id]))
  {
    hide Right, After, Allowed, InitService;
    SvcRunKeeps(config, defaultIdle, now, vs, moves, i);
    SvcRunKeepsEntries(config, defaultIdle, now, vs, moves, i);
    if vs[i].worlds[o].server.session.Some? {
      InstalledIsRight(vs[i], o);
    }
    if vs[i].books.truthful && vs[i].books.committing == map[] {
      GoalReached(vs[i].books);
    }
  }

  lemma CommitLeavesNothing(w: World, e: Event, s: Session)
    requires Right(w) && SettlesCommit(w, e)
    ensures var u := Next(w, e);
            && u.server.session.None? && !u.server.mutating && !u.server.runtimeChanging
            && (s in u.sessions.known ==> u.sessions.closes[s] == 1 || s in u.sessions.exited)
  {
    assert Owned(w.phase).None?;
  }

  /** When a commit is about to unmark a server, none of the server's sessions is left running and open. */
  lemma NoOldSessionSurvives(config: Config, defaultIdle: int, now: int, vs: seq<Service>, moves: seq<Move>, i: nat, s: Session)
    requires SvcRun(config, defaultIdle, now, vs, moves) && i < |moves| && moves[i].Local?
    requires SettlesCommit(vs[i].worlds[moves[i].o], moves[i].e)
    ensures var w := vs[i + 1].worlds[moves[i].o];
            && w.server.session.None? && !w.server.mutating && !w.server.runtimeChanging
            && (s in w.sessions.known ==> w.sessions.closes[s] == 1 || s in w.sessions.exited)
  {
    hide Right;
    SvcRunKeeps(config, defaultIdle, now, vs, moves, i);
    CommitLeavesNothing(vs[i].worlds[moves[i].o], moves[i].e, s);
  }
}
