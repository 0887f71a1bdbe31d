/** The per-room mutex: tasks queue behind one another, and the queue's entry disappears with its last task. */
module RoomLocks {
  import opened Sequences
  import opened Wrappers

  type RoomId = string

  type TaskId = nat

  datatype Stage = Waiting | Running | Done

  /** A task waits for the one it found in the lock map when it arrived, if any. */
  datatype Task = Task(room: RoomId, previous: Option<TaskId>, stage: Stage)

  /** All tasks in order of arrival, the lock map, and the tasks in the order they started. */
  datatype Locks = Locks(tasks: seq<Task>, locks: map<RoomId, TaskId>, started: seq<TaskId>)

  datatype Event = Arrive(room: RoomId) | Start(task: TaskId) | Finish(task: TaskId)

  /** The promise a task leaves in the map: settled once the task has finished and the promise before it is. */
  predicate Settled(tasks: seq<Task>, t: TaskId)
    decreases t
  {
    && t < |tasks|
    && tasks[t].stage == Done
    && (tasks[t].previous.None? || (tasks[t].previous.value < t && Settled(tasks, tasks[t].previous.value)))
  }

  /** Nothing is awaited any more. */
  predicate Clear(tasks: seq<Task>, t: TaskId)
    requires t < |tasks|
  {
    tasks[t].previous.None? || Settled(tasks, tasks[t].previous.value)
  }

  predicate Enabled(s: Locks, event: Event) {
    match event
    case Arrive(_) => true
    case Start(t) => t < |s.tasks| && s.tasks[t].stage == Waiting && Clear(s.tasks, t)
    case Finish(t) => t < |s.tasks| && s.tasks[t].stage == Running
  }

  function Without(locks: map<RoomId, TaskId>, room: RoomId): map<RoomId, TaskId> {
    map r | r in locks && r != room :: locks[r]
  }

  function Moved(tasks: seq<Task>, t: TaskId, stage: Stage): seq<Task>
    requires t < |tasks|
  {
    tasks[t := tasks[t].(stage := stage)]
  }

  /** A finishing task, whether it returned or threw, removes the entry if it is still its own. */
  function Apply(s: Locks, event: Event): Locks
    requires Enabled(s, event)
  {
    match event
    case Arrive(room) =>
      var previous := if room in s.locks then Some(s.locks[room]) else None;
      s.(tasks := s.tasks + [Task(room, previous, Waiting)], locks := s.locks[room := |s.tasks|])
    case Start(t) => s.(tasks := Moved(s.tasks, t, Running), started := s.started + [t])
    case Finish(t) =>
      var room := s.tasks[t].room;
      s.(tasks := Moved(s.tasks, t, Done),
         locks := if room in s.locks && s.locks[room] == t then Without(s.locks, room) else s.locks)
  }

  /** The store as the service keeps it; each method is one turn of the event loop. */
  class LockStore {
    var tasks: seq<Task>
    var locks: map<RoomId, TaskId>
    ghost var started: seq<TaskId>

    ghost function State(): Locks
      reads this
    {
      Locks(tasks, locks, started)
    }

    constructor ()
      ensures State() == Locks([], map[], [])
    {
      tasks, locks, started := [], map[], [];
    }

    /** Queues behind whatever the map holds for the room. */
    method Queue(room: RoomId) returns (t: TaskId)
      modifies this
      ensures t == |old(tasks)| && State() == Apply(old(State()), Arrive(room))
    {
      var previous := if room in locks then Some(locks[room]) else None;
      t := |tasks|;
      tasks := tasks + [Task(room, previous, Waiting)];
      locks := locks[room := t];
    }

    method Begin(t: TaskId)
      requires Enabled(State(), Start(t))
      modifies this
      ensures State() == Apply(old(State()), Start(t))
    {
      tasks := Moved(tasks, t, Running);
      started := started + [t];
    }

    method Release(t: TaskId)
      requires Enabled(State(), Finish(t))
      modifies this
      ensures State() == Apply(old(State()), Finish(t))
    {
      var room := tasks[t].room;
      tasks := Moved(tasks, t, Done);
      if room in locks && locks[room] == t {
        locks := Without(locks, room);
      }
    }
  }

  // ---- What every order of arrivals and completions keeps ----

  predicate SameRoom(tasks: seq<Task>, i: TaskId, j: TaskId)
    requires i < |tasks| && j < |tasks|
  {
    tasks[i].room == tasks[j].room
  }

  /** Once the later task of a room has started, the earlier one is done. */
  predicate OrderedPair(tasks: seq<Task>, i: TaskId, j: TaskId)
    requires i < j < |tasks|
  {
    SameRoom(tasks, i, j) && tasks[j].stage != Waiting ==> tasks[i].stage == Done
  }

  predicate InOrder(tasks: seq<Task>) {
    forall i: TaskId, j: TaskId | i < j < |tasks| :: OrderedPair(tasks, i, j)
  }

  /** The later task of a room awaits the earlier one or one after that, or the earlier one was already done. */
  predicate ChainedPair(tasks: seq<Task>, i: TaskId, j: TaskId)
    requires i < j < |tasks|
  {
    SameRoom(tasks, i, j) ==>
      match tasks[j].previous
      case Some(p) => i <= p
      case None => tasks[i].stage == Done
  }

  predicate Chained(tasks: seq<Task>) {
    forall i: TaskId, j: TaskId | i < j < |tasks| :: ChainedPair(tasks, i, j)
  }

  predicate PreviousOk(tasks: seq<Task>, j: TaskId)
    requires j < |tasks|
  {
    tasks[j].previous.Some? ==> tasks[j].previous.value < j && SameRoom(tasks, tasks[j].previous.value, j)
  }

  predicate AllPreviousOk(tasks: seq<Task>) {
    forall j: TaskId | j < |tasks| :: PreviousOk(tasks, j)
  }

  /** The map names the room's last task, and that task is unfinished. */
  predicate EntryOk(s: Locks, room: RoomId)
    requires room in s.locks
  {
    && s.locks[room] < |s.tasks|
    && s.tasks[s.locks[room]].room == room
    && s.tasks[s.locks[room]].stage != Done
    && forall i: TaskId | s.locks[room] < i < |s.tasks| :: s.tasks[i].room != room
  }

  predicate EntriesOk(s: Locks) {
    forall room | room in s.locks :: EntryOk(s, room)
  }

  /** An unfinished task's room is in the map. */
  predicate Mapped(s: Locks, i: TaskId)
    requires i < |s.tasks|
  {
    s.tasks[i].stage != Done ==> s.tasks[i].room in s.locks
  }

  predicate AllMapped(s: Locks) {
    forall i: TaskId | i < |s.tasks| :: Mapped(s, i)
  }

  predicate HasStarted(s: Locks, a: nat)
    requires a < |s.started|
  {
    s.started[a] < |s.tasks| && s.tasks[s.started[a]].stage != Waiting
  }

  /** Of two started tasks of a room, the one started first arrived first. */
  predicate StartedPair(s: Locks, a: nat, b: nat)
    requires a < b < |s.started|
  {
    s.started[a] < |s.tasks| && s.started[b] < |s.tasks| && SameRoom(s.tasks, s.started[a], s.started[b])
    ==> s.started[a] < s.started[b]
  }

  predicate StartedInOrder(s: Locks) {
    && (forall a: nat | a < |s.started| :: HasStarted(s, a))
    && (forall a: nat, b: nat | a < b < |s.started| :: StartedPair(s, a, b))
  }

  predicate LocksOk(s: Locks) {
    && InOrder(s.tasks) && Chained(s.tasks) && AllPreviousOk(s.tasks)
    && EntriesOk(s) && AllMapped(s) && StartedInOrder(s)
  }

  lemma ArriveTasks(s: Locks, room: RoomId)
    requires LocksOk(s)
    ensures var after := Apply(s, Arrive(room));
            InOrder(after.tasks) && Chained(after.tasks) && AllPreviousOk(after.tasks)
  {
    var after, n := Apply(s, Arrive(room)), |s.tasks|;
    forall i: TaskId, j: TaskId | i < j < |after.tasks|
      ensures OrderedPair(after.tasks, i, j) && ChainedPair(after.tasks, i, j)
    {
      if j < n {
        assert OrderedPair(s.tasks, i, j) && ChainedPair(s.tasks, i, j);
      } else if room in s.locks {
        assert EntryOk(s, room);
      } else {
        assert Mapped(s, i);
      }
    }
    forall j: TaskId | j < |after.tasks| ensures PreviousOk(after.tasks, j) {
      if j < n {
        assert PreviousOk(s.tasks, j);
      } else if room in s.locks {
        assert EntryOk(s, room);
      }
    }
  }

  lemma ArriveKeeps(s: Locks, room: RoomId)
    requires LocksOk(s)
    ensures LocksOk(Apply(s, Arrive(room)))
  {
    var after := Apply(s, Arrive(room));
    ArriveTasks(s, room);
    forall r | r in after.locks ensures EntryOk(after, r) {
      if r != room {
        assert EntryOk(s, r);
      }
    }
    forall i: TaskId | i < |after.tasks| ensures Mapped(after, i) {
      if i < |s.tasks| {
        assert Mapped(s, i);
      }
    }
    forall a: nat | a < |after.started| ensures HasStarted(after, a) {
      assert HasStarted(s, a);
    }
    forall a: nat, b: nat | a < b < |after.started| ensures StartedPair(after, a, b) {
      assert HasStarted(s, a) && HasStarted(s, b) && StartedPair(s, a, b);
    }
  }

  /** A task that may start has nothing unfinished before it in its room. */
  lemma ClearMeansFirst(s: Locks, t: TaskId, i: TaskId)
    requires LocksOk(s) && t < |s.tasks| && Clear(s.tasks, t) && i < t && SameRoom(s.tasks, i, t)
    ensures s.tasks[i].stage == Done
  {
    assert ChainedPair(s.tasks, i, t) && PreviousOk(s.tasks, t);
    if s.tasks[t].previous.Some? {
      var p := s.tasks[t].previous.value;
      if i < p {
        assert OrderedPair(s.tasks, i, p);
      }
    }
  }

  /** When one task moves to a stage its room allows, the order of the room's tasks holds on. */
  lemma StageTasks(s: Locks, t: TaskId, stage: Stage)
    requires LocksOk(s) && t < |s.tasks| && stage != Waiting && s.tasks[t].stage != Done
    requires forall i: TaskId | i < t && SameRoom(s.tasks, i, t) :: s.tasks[i].stage == Done
    ensures var after := Moved(s.tasks, t, stage); InOrder(after) && Chained(after) && AllPreviousOk(after)
  {
    var after := Moved(s.tasks, t, stage);
    forall i: TaskId, j: TaskId | i < j < |after| ensures OrderedPair(after, i, j) && ChainedPair(after, i, j) {
      assert OrderedPair(s.tasks, i, j) && ChainedPair(s.tasks, i, j);
      if j == t && SameRoom(after, i, t) {
        assert SameRoom(s.tasks, i, t);
      }
    }
    forall j: TaskId | j < |after| ensures PreviousOk(after, j) {
      assert PreviousOk(s.tasks, j);
    }
  }

  lemma StartKeeps(s: Locks, t: TaskId)
    requires LocksOk(s) && Enabled(s, Start(t))
    ensures LocksOk(Apply(s, Start(t)))
  {
    var after := Apply(s, Start(t));
    forall i: TaskId | i < t && SameRoom(s.tasks, i, t) ensures s.tasks[i].stage == Done {
      ClearMeansFirst(s, t, i);
    }
    StageTasks(s, t, Running);
    forall r | r in after.locks ensures EntryOk(after, r) {
      assert EntryOk(s, r);
    }
    forall i: TaskId | i < |after.tasks| ensures Mapped(after, i) {
      assert Mapped(s, i);
    }
    StartLog(s, t);
  }

  lemma StartLog(s: Locks, t: TaskId)
    requires LocksOk(s) && Enabled(s, Start(t))
    ensures StartedInOrder(Apply(s, Start(t)))
  {
    var after, n := Apply(s, Start(t)), |s.started|;
    forall a: nat | a < |after.started| ensures HasStarted(after, a) {
      if a < n {
        assert HasStarted(s, a);
      }
    }
    forall a: nat, b: nat | a < b < |after.started| ensures StartedPair(after, a, b) {
      assert HasStarted(s, a);
      if b < n {
        assert HasStarted(s, b) && StartedPair(s, a, b);
      } else if t < s.started[a] {
        assert OrderedPair(s.tasks, t, s.started[a]);
      }
    }
  }

  lemma FinishKeeps(s: Locks, t: TaskId)
    requires LocksOk(s) && Enabled(s, Finish(t))
    ensures LocksOk(Apply(s, Finish(t)))
  {
    var after := Apply(s, Finish(t));
    forall i: TaskId | i < t && SameRoom(s.tasks, i, t) ensures s.tasks[i].stage == Done {
      assert OrderedPair(s.tasks, i, t);
    }
    StageTasks(s, t, Done);
    FinishMap(s, t);
    forall a: nat | a < |after.started| ensures HasStarted(after, a) {
      assert HasStarted(s, a);
    }
    forall a: nat, b: nat | a < b < |after.started| ensures StartedPair(after, a, b) {
      assert HasStarted(s, a) && HasStarted(s, b) && StartedPair(s, a, b);
    }
  }

  lemma FinishMap(s: Locks, t: TaskId)
    requires LocksOk(s) && Enabled(s, Finish(t))
    ensures EntriesOk(Apply(s, Finish(t))) && AllMapped(Apply(s, Finish(t)))
  {
    var after, room := Apply(s, Finish(t)), s.tasks[t].room;
    forall r | r in after.locks ensures EntryOk(after, r) {
      assert EntryOk(s, r);
    }
    forall i: TaskId | i < |after.tasks| ensures Mapped(after, i) {
      assert Mapped(s, i) && Mapped(s, t);
      if i != t && s.tasks[i].room == room && s.locks[room] == t {
        assert EntryOk(s, room);
        assert OrderedPair(s.tasks, i, t);
      }
    }
  }

  lemma EventKeeps(s: Locks, event: Event)
    requires LocksOk(s) && Enabled(s, event)
    ensures LocksOk(Apply(s, event))
  {
    match event {
      case Arrive(room) => ArriveKeeps(s, room);
      case Start(t) => StartKeeps(s, t);
      case Finish(t) => FinishKeeps(s, t);
    }
  }

  predicate LockRun(states: seq<Locks>, events: seq<Event>) {
    && |states| == |events| + 1
    && states[0] == Locks([], map[], [])
    && forall k {:trigger events[k]} | 0 <= k < |events| ::
      Enabled(states[k], events[k]) && states[k + 1] == Apply(states[k], events[k])
  }

  lemma {:induction false} RunKeepsLocks(states: seq<Locks>, events: seq<Event>, k: nat)
    requires LockRun(states, events) && k < |states|
    ensures LocksOk(states[k])
  {
    if k > 0 {
      RunKeepsLocks(states, events, k - 1);
      var event := events[k - 1];
      EventKeeps(states[k - 1], event);
    }
  }

  /** At most one of two tasks of a room is running. */
  lemma NoOverlap(s: Locks, i: TaskId, j: TaskId)
    requires LocksOk(s) && i < |s.tasks| && j < |s.tasks| && i != j && SameRoom(s.tasks, i, j)
    ensures !(s.tasks[i].stage == Running && s.tasks[j].stage == Running)
  {
    if i < j {
      assert OrderedPair(s.tasks, i, j);
    } else {
      assert OrderedPair(s.tasks, j, i);
    }
  }

  /** In every order of arrivals and completions, a room runs at most one task, its tasks start in the order they
      arrived, and the map has an entry for the room exactly while one of its tasks is unfinished. */
  lemma Mutex(states: seq<Locks>, events: seq<Event>, k: nat, room: RoomId)
    requires LockRun(states, events) && k < |states|
    ensures var s := states[k];
            && (forall i: TaskId, j: TaskId | i < |s.tasks| && j < |s.tasks| && i != j && SameRoom(s.tasks, i, j) ::
                  !(s.tasks[i].stage == Running && s.tasks[j].stage == Running))
            && (forall a: nat, b: nat | a < b < |s.started| :: StartedPair(s, a, b))
            && (room in s.locks <==>
                exists i :: 0 <= i < |s.tasks| && s.tasks[i].room == room && s.tasks[i].stage != Done)
  {
    RunKeepsLocks(states, events, k);
    var s := states[k];
    forall i: TaskId, j: TaskId | i < |s.tasks| && j < |s.tasks| && i != j && SameRoom(s.tasks, i, j)
      ensures !(s.tasks[i].stage == Running && s.tasks[j].stage == Running)
    {
      NoOverlap(s, i, j);
    }
    if room in s.locks {
      assert EntryOk(s, room);
    }
    forall i: TaskId | i < |s.tasks| && s.tasks[i].room == room && s.tasks[i].stage != Done ensures room in s.locks {
      assert Mapped(s, i);
    }
  }

  lemma {:induction false} DoneSettles(s: Locks, t: TaskId)
    requires LocksOk(s) && t < |s.tasks| && s.tasks[t].stage == Done
    ensures Settled(s.tasks, t)
    decreases t
  {
    assert PreviousOk(s.tasks, t);
    if s.tasks[t].previous.Some? {
      assert OrderedPair(s.tasks, s.tasks[t].previous.value, t);
      DoneSettles(s, s.tasks[t].previous.value);
    }
  }

  /** Nobody is stuck: when no task of the room is running, its first waiting task may start. */
  lemma FirstWaiterMayStart(s: Locks, t: TaskId)
    requires LocksOk(s) && t < |s.tasks| && s.tasks[t].stage == Waiting
    requires forall i: TaskId | i < t && SameRoom(s.tasks, i, t) :: s.tasks[i].stage == Done
    ensures Enabled(s, Start(t))
  {
    assert PreviousOk(s.tasks, t);
    if s.tasks[t].previous.Some? {
      assert SameRoom(s.tasks, s.tasks[t].previous.value, t);
      DoneSettles(s, s.tasks[t].previous.value);
    }
  }
}
