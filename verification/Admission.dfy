/** Admission to heavy analytics: a bounded queue and a lock in every process, and one file lock shared by
    all of them. Tasks interleave at their suspension points; processes may die at any time. */
module Admission {
  import opened Prelude

  const MAX_WAITERS := 8

  type TaskId = int

  type Process = int

  /** What a task inside the admission context has taken so far. */
  datatype Task = Task(process: Process, acquired: bool, descriptor: Option<nat>, token: bool, nested: nat)

  /** Per process: who holds the queue lock, the counter of waiters and the activity flag. */
  datatype Local = Local(owner: Option<TaskId>, waiters: int, active: int)

  /** `flocked` is the open descriptor that holds the file lock. */
  datatype State = State(local: map<Process, Local>, tasks: map<TaskId, Task>, flocked: Option<nat>, nextDescriptor: nat)

  function LocalOf(s: State, p: Process): Local
  {
    if p in s.local then s.local[p] else Local(None, 0, 0)
  }

  datatype Step =
    | Enter(task: TaskId, process: Process)
    | Acquire(task: TaskId, opens: bool, memory: bool)
    | Poll(task: TaskId, memory: bool)
    | Abort(task: TaskId)
    | EnterAgain(task: TaskId)
    | LeaveAgain(task: TaskId)
    | Finish(task: TaskId)
    | Die(process: Process)

  /** The way out, whatever the reason: undo exactly what the task's own record says it has taken. */
  function Release(s: State, t: TaskId): State
    requires t in s.tasks
  {
    var task := s.tasks[t];
    var local := LocalOf(s, task.process);
    var counted := if task.token then local.(active := 0) else local.(waiters := local.waiters - 1);
    var unlocked := if task.acquired then counted.(owner := None) else counted;
    s.(local := s.local[task.process := unlocked],
       flocked := if task.descriptor.Some? && s.flocked == task.descriptor then None else s.flocked,
       tasks := s.tasks - {t})
  }

  /** Try the file lock; with it, check the memory and start, or leave. */
  function TryFile(s: State, t: TaskId, memory: bool): State
    requires t in s.tasks && s.tasks[t].descriptor.Some?
  {
    var task := s.tasks[t];
    if s.flocked.Some? then s
    else
      var held := s.(flocked := task.descriptor);
      if !memory then Release(held, t)
      else
        var local := LocalOf(s, task.process);
        held.(local := s.local[task.process := local.(waiters := local.waiters - 1, active := 1)],
              tasks := s.tasks[t := task.(token := true)])
  }

  predicate Waiting(s: State, t: TaskId)
  {
    t in s.tasks && !s.tasks[t].token
  }

  function Apply(s: State, step: Step): State
  {
    match step
    case Enter(t, p) =>
      var local := LocalOf(s, p);
      if t in s.tasks || local.waiters >= MAX_WAITERS then s
      else s.(local := s.local[p := local.(waiters := local.waiters + 1)],
              tasks := s.tasks[t := Task(p, false, None, false, 0)])
    case Acquire(t, opens, memory) =>
      if !Waiting(s, t) || s.tasks[t].acquired || LocalOf(s, s.tasks[t].process).owner.Some? then s
      else
        var task := s.tasks[t];
        var locked := s.(local := s.local[task.process := LocalOf(s, task.process).(owner := Some(t))],
                         tasks := s.tasks[t := task.(acquired := true)]);
        if !opens then Release(locked, t)
        else
          TryFile(locked.(tasks := s.tasks[t := task.(acquired := true, descriptor := Some(s.nextDescriptor))],
                          nextDescriptor := s.nextDescriptor + 1), t, memory)
    case Poll(t, memory) =>
      if !Waiting(s, t) || s.tasks[t].descriptor.None? then s else TryFile(s, t, memory)
    case Abort(t) => if Waiting(s, t) then Release(s, t) else s
    case EnterAgain(t) =>
      if t in s.tasks && s.tasks[t].token then s.(tasks := s.tasks[t := s.tasks[t].(nested := s.tasks[t].nested + 1)]) else s
    case LeaveAgain(t) =>
      if t in s.tasks && s.tasks[t].nested > 0 then s.(tasks := s.tasks[t := s.tasks[t].(nested := s.tasks[t].nested - 1)]) else s
    case Finish(t) => if t in s.tasks && s.tasks[t].token && s.tasks[t].nested == 0 then Release(s, t) else s
    case Die(p) =>
      State(s.local - {p}, map t | t in s.tasks && s.tasks[t].process != p :: s.tasks[t],
            if exists t :: t in s.tasks && s.tasks[t].process == p && s.tasks[t].descriptor.Some?
                           && s.tasks[t].descriptor == s.flocked then None else s.flocked,
            s.nextDescriptor)
  }

  const IDLE := State(map[], map[], None, 0)

  function Play(steps: seq<Step>): State
  {
    if steps == [] then IDLE else Apply(Play(steps[..|steps| - 1]), steps[|steps| - 1])
  }

  // ---------------------------------------------------------------- what every interleaving keeps

  function WaitersOf(tasks: map<TaskId, Task>, p: Process): set<TaskId>
  {
    set t | t in tasks && tasks[t].process == p && !tasks[t].token
  }

  predicate Queued(local: map<Process, Local>, tasks: map<TaskId, Task>)
  {
    && (forall p :: p in local ==> local[p].waiters == |WaitersOf(tasks, p)| && local[p].waiters <= MAX_WAITERS)
    && (forall t :: t in tasks ==> tasks[t].process in local)
  }

  /** The queue lock of a process is held by exactly the task that says it acquired it. */
  predicate Owned(local: map<Process, Local>, tasks: map<TaskId, Task>)
  {
    && (forall t :: t in tasks && tasks[t].process in local ==>
          (tasks[t].acquired <==> local[tasks[t].process].owner == Some(t)))
    && (forall p :: p in local && local[p].owner.Some? ==>
          local[p].owner.value in tasks && tasks[local[p].owner.value].process == p)
  }

  predicate TaskFine(t: Task, flocked: Option<nat>, next: nat)
  {
    && (t.descriptor.Some? ==> t.acquired && t.descriptor.value < next)
    && (t.token <==> t.descriptor.Some? && t.descriptor == flocked)
    && (t.nested > 0 ==> t.token)
  }

  predicate Descriptors(tasks: map<TaskId, Task>, flocked: Option<nat>, next: nat)
  {
    && (forall t :: t in tasks ==> TaskFine(tasks[t], flocked, next))
    && (forall t, u :: t in tasks && u in tasks && tasks[t].descriptor.Some? && tasks[t].descriptor == tasks[u].descriptor
                       ==> t == u)
    && (flocked.Some? ==> exists t :: t in tasks && tasks[t].descriptor == flocked)
  }

  /** The activity flag is up exactly while a task of the process runs its body. */
  predicate Flagged(local: map<Process, Local>, tasks: map<TaskId, Task>)
  {
    forall p :: p in local ==> local[p].active == if Runs(tasks, p) then 1 else 0
  }

  predicate Runs(tasks: map<TaskId, Task>, p: Process)
  {
    exists t :: t in tasks && tasks[t].process == p && tasks[t].token
  }

  predicate Inv(s: State)
  {
    && Queued(s.local, s.tasks) && Owned(s.local, s.tasks)
    && Descriptors(s.tasks, s.flocked, s.nextDescriptor) && Flagged(s.local, s.tasks)
  }

  /** At most one operation runs, over all tasks of all processes. */
  lemma OneAdmitted(s: State, t: TaskId, u: TaskId)
    requires Inv(s) && t in s.tasks && u in s.tasks && s.tasks[t].token && s.tasks[u].token
    ensures t == u
  {
    assert TaskFine(s.tasks[t], s.flocked, s.nextDescriptor) && TaskFine(s.tasks[u], s.flocked, s.nextDescriptor);
  }

  // ---------------------------------------------------------------- the counters

  /** A task other than `t` is untouched. */
  ghost predicate Only(tasks: map<TaskId, Task>, tasks': map<TaskId, Task>, t: TaskId)
  {
    forall u :: u != t ==> (u in tasks <==> u in tasks') && (u in tasks && u in tasks' ==> tasks'[u] == tasks[u])
  }

  lemma WaitersSame(tasks: map<TaskId, Task>, tasks': map<TaskId, Task>, t: TaskId, p: Process)
    requires Only(tasks, tasks', t) && (t in WaitersOf(tasks, p) <==> t in WaitersOf(tasks', p))
    ensures WaitersOf(tasks', p) == WaitersOf(tasks, p)
  {
    forall u
      ensures u in WaitersOf(tasks', p) <==> u in WaitersOf(tasks, p)
    {
      if u != t {
        assert u in tasks <==> u in tasks';
      }
    }
  }

  function One(waiting: bool): int
  {
    if waiting then 1 else 0
  }

  lemma WaitersStep(tasks: map<TaskId, Task>, tasks': map<TaskId, Task>, t: TaskId, p: Process)
    requires Only(tasks, tasks', t)
    ensures |WaitersOf(tasks', p)| ==
            |WaitersOf(tasks, p)| + One(t in WaitersOf(tasks', p)) - One(t in WaitersOf(tasks, p))
  {
    var before, after := WaitersOf(tasks, p), WaitersOf(tasks', p);
    forall u
      ensures u in before - {t} <==> u in after - {t}
    {
      if u != t {
        assert u in tasks <==> u in tasks';
      }
    }
    hide WaitersOf, Only;
    DropOne(before, t);
    DropOne(after, t);
    assert before - {t} == after - {t};
  }

  /** Nobody else's waiting changes with one task; its own process gains or loses one waiter. */
  lemma QueuedStep(local: map<Process, Local>, tasks: map<TaskId, Task>, tasks': map<TaskId, Task>, t: TaskId, p: Process, l: Local)
    requires Queued(local, tasks) && Only(tasks, tasks', t)
    requires (t in tasks ==> tasks[t].process == p) && (t in tasks' ==> tasks'[t].process == p)
    requires l.waiters == (if p in local then local[p].waiters else 0)
             + One(t in tasks' && !tasks'[t].token) - One(t in tasks && !tasks[t].token)
    requires l.waiters <= MAX_WAITERS
    ensures Queued(local[p := l], tasks')
  {
    forall q | q in local && q != p
      ensures local[q].waiters == |WaitersOf(tasks', q)|
    {
      WaitersSame(tasks, tasks', t, q);
    }
    WaitersStep(tasks, tasks', t, p);
    if p !in local {
      assert forall u :: u !in WaitersOf(tasks, p);
      Inhabited(WaitersOf(tasks, p));
    }
    forall u | u in tasks'
      ensures tasks'[u].process in local || tasks'[u].process == p
    {
      if u != t {
        assert u in tasks;
      }
    }
    hide One;
  }

  lemma FlaggedStep(local: map<Process, Local>, tasks: map<TaskId, Task>, tasks': map<TaskId, Task>, t: TaskId, p: Process, l: Local)
    requires Flagged(local, tasks) && Only(tasks, tasks', t)
    requires (t in tasks ==> tasks[t].process == p) && (t in tasks' ==> tasks'[t].process == p)
    requires l.active == if Runs(tasks', p) then 1 else 0
    ensures Flagged(local[p := l], tasks')
  {
    forall q | q in local && q != p
      ensures Runs(tasks, q) <==> Runs(tasks', q)
    {
      if Runs(tasks, q) {
        var u :| u in tasks && tasks[u].process == q && tasks[u].token;
        assert u != t;
        assert u in tasks' && tasks'[u] == tasks[u];
      }
      if Runs(tasks', q) {
        var u :| u in tasks' && tasks'[u].process == q && tasks'[u].token;
        assert u != t;
        assert u in tasks && tasks'[u] == tasks[u];
      }
    }
    hide Runs;
  }

  // ---------------------------------------------------------------- the steps

  /** A task that joins the queue of its process holds nothing yet. */
  lemma EnterOwned(s: State, t: TaskId, p: Process)
    requires Owned(s.local, s.tasks) && t !in s.tasks
    requires forall u :: u in s.tasks ==> s.tasks[u].process in s.local
    ensures Owned(s.local[p := LocalOf(s, p).(waiters := LocalOf(s, p).waiters + 1)], s.tasks[t := Task(p, false, None, false, 0)])
  {
  }

  lemma EnterDescriptors(s: State, t: TaskId, p: Process)
    requires Descriptors(s.tasks, s.flocked, s.nextDescriptor) && t !in s.tasks
    ensures Descriptors(s.tasks[t := Task(p, false, None, false, 0)], s.flocked, s.nextDescriptor)
  {
    var tasks' := s.tasks[t := Task(p, false, None, false, 0)];
    if s.flocked.Some? {
      var u :| u in s.tasks && s.tasks[u].descriptor == s.flocked;
      assert u in tasks' && tasks'[u].descriptor == s.flocked;
    }
  }

  lemma EnterKeeps(s: State, t: TaskId, p: Process)
    requires Inv(s)
    ensures Inv(Apply(s, Enter(t, p)))
  {
    var s' := Apply(s, Enter(t, p));
    if s' != s {
      var l := LocalOf(s, p).(waiters := LocalOf(s, p).waiters + 1);
      assert p !in s.local ==> !Runs(s.tasks, p);
      assert Only(s.tasks, s'.tasks, t);
      EnterOwned(s, t, p);
      EnterDescriptors(s, t, p);
      QueuedStep(s.local, s.tasks, s'.tasks, t, p, l);
      RunsToo(s.tasks, s'.tasks, t, p);
      hide Queued, Runs, Owned, Descriptors;
      FlaggedStep(s.local, s.tasks, s'.tasks, t, p, l);
    }
  }

  lemma RunsToo(tasks: map<TaskId, Task>, tasks': map<TaskId, Task>, t: TaskId, p: Process)
    requires Only(tasks, tasks', t) && !(t in tasks && tasks[t].token) && !(t in tasks' && tasks'[t].token)
    ensures Runs(tasks, p) <==> Runs(tasks', p)
  {
    if Runs(tasks, p) {
      var u :| u in tasks && tasks[u].process == p && tasks[u].token;
      assert u != t;
      assert u in tasks' && tasks'[u] == tasks[u];
    }
    if Runs(tasks', p) {
      var u :| u in tasks' && tasks'[u].process == p && tasks'[u].token;
      assert u != t;
      assert u in tasks && tasks'[u] == tasks[u];
    }
  }

  lemma Put(s: State, t: TaskId, task: Task, l: Local)
    requires t in s.tasks && s.tasks[t].process == task.process && Queued(s.local, s.tasks)
    ensures Only(s.tasks, s.tasks[t := task], t) && task.process in s.local && LocalOf(s, task.process) == s.local[task.process]
  {
  }

  /** Taking the queue lock. */
  lemma LockKeeps(s: State, t: TaskId)
    requires Inv(s) && Waiting(s, t) && !s.tasks[t].acquired && LocalOf(s, s.tasks[t].process).owner.None?
    ensures var task := s.tasks[t];
      Inv(s.(local := s.local[task.process := LocalOf(s, task.process).(owner := Some(t))],
             tasks := s.tasks[t := task.(acquired := true)]))
  {
    var task := s.tasks[t];
    var p, task' := task.process, task.(acquired := true);
    var l := LocalOf(s, p).(owner := Some(t));
    var tasks' := s.tasks[t := task'];
    Put(s, t, task', l);
    QueuedStep(s.local, s.tasks, tasks', t, p, l);
    RunsToo(s.tasks, tasks', t, p);
    FlaggedStep(s.local, s.tasks, tasks', t, p, l);
    hide Queued, Flagged, Runs, Only;
    assert Owned(s.local[p := l], tasks');
    hide Owned;
    DescriptorsKeep(s.tasks, s.flocked, s.nextDescriptor, t, task');
  }

  lemma DescriptorsKeep(tasks: map<TaskId, Task>, flocked: Option<nat>, next: nat, t: TaskId, task: Task)
    requires Descriptors(tasks, flocked, next) && t in tasks && TaskFine(task, flocked, next)
    requires task.descriptor == tasks[t].descriptor
    ensures Descriptors(tasks[t := task], flocked, next)
  {
    hide TaskFine;
    if flocked.Some? {
      var u :| u in tasks && tasks[u].descriptor == flocked;
      assert u in tasks[t := task] && tasks[t := task][u].descriptor == flocked;
    }
  }

  lemma OwnedSame(local: map<Process, Local>, tasks: map<TaskId, Task>, t: TaskId, task: Task, l: Local)
    requires Owned(local, tasks) && t in tasks && task.process == tasks[t].process && task.acquired == tasks[t].acquired
    requires task.process in local && l.owner == local[task.process].owner
    ensures Owned(local[task.process := l], tasks[t := task])
  {
  }

  /** Opening the lock file: a descriptor of its own. */
  lemma OpenKeeps(s: State, t: TaskId)
    requires Inv(s) && Waiting(s, t) && s.tasks[t].acquired && s.tasks[t].descriptor.None?
    ensures Inv(s.(tasks := s.tasks[t := s.tasks[t].(descriptor := Some(s.nextDescriptor))],
                   nextDescriptor := s.nextDescriptor + 1))
  {
    var task := s.tasks[t];
    var p, task' := task.process, task.(descriptor := Some(s.nextDescriptor));
    var tasks' := s.tasks[t := task'];
    var l := LocalOf(s, p);
    Put(s, t, task', l);
    assert s.local[p := l] == s.local;
    QueuedStep(s.local, s.tasks, tasks', t, p, l);
    RunsToo(s.tasks, tasks', t, p);
    FlaggedStep(s.local, s.tasks, tasks', t, p, l);
    OwnedSame(s.local, s.tasks, t, task', l);
    hide Queued, Flagged, Runs, Only, Owned;
    OpenDescriptors(s.tasks, s.flocked, s.nextDescriptor, t, task');
  }

  lemma OpenDescriptors(tasks: map<TaskId, Task>, flocked: Option<nat>, next: nat, t: TaskId, task: Task)
    requires Descriptors(tasks, flocked, next) && t in tasks && tasks[t].descriptor.None?
    requires task.descriptor == Some(next) && task.acquired && !task.token && task.nested == 0
    ensures Descriptors(tasks[t := task], flocked, next + 1)
  {
    if flocked.Some? {
      var u :| u in tasks && tasks[u].descriptor == flocked;
      assert TaskFine(tasks[u], flocked, next);
      assert u in tasks[t := task] && tasks[t := task][u].descriptor == flocked;
    }
    forall u | u in tasks && u != t
      ensures TaskFine(tasks[u], flocked, next + 1) && tasks[u].descriptor != Some(next)
    {
      assert TaskFine(tasks[u], flocked, next);
    }
  }

  lemma NoneRuns(s: State, t: TaskId)
    requires Inv(s) && (s.flocked.None? || (t in s.tasks && s.tasks[t].token))
    ensures forall u :: u in s.tasks && u != t ==> !s.tasks[u].token
  {
    forall u | u in s.tasks && u != t
      ensures !s.tasks[u].token
    {
      assert TaskFine(s.tasks[u], s.flocked, s.nextDescriptor);
      if t in s.tasks {
        assert TaskFine(s.tasks[t], s.flocked, s.nextDescriptor);
      }
    }
  }

  lemma AdmitDescriptors(tasks: map<TaskId, Task>, next: nat, t: TaskId, task: Task)
    requires Descriptors(tasks, None, next) && t in tasks && task == tasks[t].(token := true)
    requires task.descriptor.Some?
    ensures Descriptors(tasks[t := task], task.descriptor, next)
  {
    forall u | u in tasks
      ensures TaskFine(tasks[t := task][u], task.descriptor, next)
    {
      assert TaskFine(tasks[u], None, next);
    }
    assert t in tasks[t := task] && tasks[t := task][t].descriptor == task.descriptor;
    hide TaskFine;
  }

  /** Getting the file lock with enough memory: one waiter less, one active operation. */
  lemma AdmitKeeps(s: State, t: TaskId)
    requires Inv(s) && Waiting(s, t) && s.tasks[t].descriptor.Some? && s.flocked.None?
    ensures Inv(TryFile(s, t, true))
  {
    var task := s.tasks[t];
    var p, task' := task.process, task.(token := true);
    var tasks' := s.tasks[t := task'];
    var l := LocalOf(s, p).(waiters := LocalOf(s, p).waiters - 1, active := 1);
    Put(s, t, task', l);
    NoneRuns(s, t);
    AdmitDescriptors(s.tasks, s.nextDescriptor, t, task');
    hide Descriptors;
    QueuedStep(s.local, s.tasks, tasks', t, p, l);
    assert Runs(tasks', p) by { assert t in tasks' && tasks'[t].token; }
    FlaggedStep(s.local, s.tasks, tasks', t, p, l);
    OwnedSame(s.local, s.tasks, t, task', l);
    hide Queued, Flagged, Runs, Only, Owned;
  }

  lemma ReleaseDescriptors(s: State, t: TaskId)
    requires Inv(s) && t in s.tasks
    ensures Descriptors(s.tasks - {t}, Release(s, t).flocked, s.nextDescriptor)
  {
    var tasks', flocked' := s.tasks - {t}, Release(s, t).flocked;
    assert TaskFine(s.tasks[t], s.flocked, s.nextDescriptor);
    if s.tasks[t].token {
      NoneRuns(s, t);
    }
    forall u | u in tasks'
      ensures TaskFine(tasks'[u], flocked', s.nextDescriptor)
    {
      assert TaskFine(s.tasks[u], s.flocked, s.nextDescriptor);
    }
    if flocked'.Some? {
      var u :| u in s.tasks && s.tasks[u].descriptor == s.flocked;
      assert u in tasks' && tasks'[u].descriptor == flocked';
    }
    hide TaskFine, Queued, Flagged, Owned;
  }

  lemma ReleaseOwned(local: map<Process, Local>, tasks: map<TaskId, Task>, t: TaskId, l: Local)
    requires Owned(local, tasks) && t in tasks && tasks[t].process in local
    requires l.owner == if tasks[t].acquired then None else local[tasks[t].process].owner
    ensures Owned(local[tasks[t].process := l], tasks - {t})
  {
  }

  /** Every way out gives back exactly what was taken: the counter, the flag, the queue lock, the file lock. */
  lemma ReleaseKeeps(s: State, t: TaskId)
    requires Inv(s) && t in s.tasks
    ensures Inv(Release(s, t))
  {
    var task := s.tasks[t];
    var p, tasks' := task.process, s.tasks - {t};
    var counted := if task.token then LocalOf(s, p).(active := 0) else LocalOf(s, p).(waiters := LocalOf(s, p).waiters - 1);
    var l := if task.acquired then counted.(owner := None) else counted;
    ReleaseDescriptors(s, t);
    if task.token {
      NoneRuns(s, t);
    } else {
      RunsToo(s.tasks, tasks', t, p);
    }
    hide Descriptors;
    QueuedStep(s.local, s.tasks, tasks', t, p, l);
    ReleaseOwned(s.local, s.tasks, t, l);
    hide Owned, Queued;
    FlaggedStep(s.local, s.tasks, tasks', t, p, l);
    hide Flagged, Runs, Only;
  }

  lemma NestKeeps(s: State, t: TaskId, n: nat)
    requires Inv(s) && t in s.tasks && s.tasks[t].token
    ensures Inv(s.(tasks := s.tasks[t := s.tasks[t].(nested := n)]))
  {
    var task := s.tasks[t];
    var p, task' := task.process, task.(nested := n);
    var tasks' := s.tasks[t := task'];
    var l := LocalOf(s, p);
    Put(s, t, task', l);
    assert s.local[p := l] == s.local;
    QueuedStep(s.local, s.tasks, tasks', t, p, l);
    assert Runs(tasks', p) by { assert t in tasks' && tasks'[t].token; }
    assert Runs(s.tasks, p);
    FlaggedStep(s.local, s.tasks, tasks', t, p, l);
    OwnedSame(s.local, s.tasks, t, task', l);
    assert TaskFine(s.tasks[t], s.flocked, s.nextDescriptor);
    DescriptorsKeep(s.tasks, s.flocked, s.nextDescriptor, t, task');
    hide Queued, Flagged, Runs, Only, Owned, Descriptors;
  }

  lemma DieDescriptors(s: State, p: Process)
    requires Descriptors(s.tasks, s.flocked, s.nextDescriptor)
    ensures Descriptors(Apply(s, Die(p)).tasks, Apply(s, Die(p)).flocked, s.nextDescriptor)
  {
    var s' := Apply(s, Die(p));
    forall t | t in s'.tasks
      ensures TaskFine(s'.tasks[t], s'.flocked, s.nextDescriptor)
    {
      assert TaskFine(s.tasks[t], s.flocked, s.nextDescriptor);
    }
    if s'.flocked.Some? {
      var t :| t in s.tasks && s.tasks[t].descriptor == s.flocked;
      assert t in s'.tasks && s'.tasks[t].descriptor == s'.flocked;
    }
    hide TaskFine;
  }

  /** When a process dies, the operating system closes its descriptors; nobody else notices. */
  lemma DieKeeps(s: State, p: Process)
    requires Inv(s)
    ensures Inv(Apply(s, Die(p)))
  {
    var s' := Apply(s, Die(p));
    DieDescriptors(s, p);
    hide Descriptors;
    forall q | q in s'.local
      ensures WaitersOf(s'.tasks, q) == WaitersOf(s.tasks, q)
    {
    }
    assert Queued(s'.local, s'.tasks);
    hide Queued, WaitersOf;
    assert Owned(s'.local, s'.tasks);
    hide Owned;
    forall q | q in s'.local
      ensures Runs(s'.tasks, q) <==> Runs(s.tasks, q)
    {
      if Runs(s.tasks, q) {
        var u :| u in s.tasks && s.tasks[u].process == q && s.tasks[u].token;
        assert u in s'.tasks && s'.tasks[u] == s.tasks[u];
      }
    }
    hide Runs;
  }

  lemma TryFileKeeps(s: State, t: TaskId, memory: bool)
    requires Inv(s) && Waiting(s, t) && s.tasks[t].descriptor.Some?
    ensures Inv(TryFile(s, t, memory))
  {
    if s.flocked.None? {
      if memory {
        AdmitKeeps(s, t);
      } else {
        ReleaseKeeps(s, t);
        assert TryFile(s, t, memory) == Release(s, t);
      }
    }
    hide Inv;
  }

  /** Full queues, timeouts, low memory, a lock file that cannot be opened, cancellations, failing bodies,
      nested entries and dying processes, in any order: every step keeps the invariant. */
  lemma {:induction false} StepKeeps(s: State, step: Step)
    requires Inv(s)
    ensures Inv(Apply(s, step))
  {
    hide Queued, Owned, Descriptors, Flagged, TryFile, Release;
    match step
    case Enter(t, p) => EnterKeeps(s, t, p);
    case Acquire(t, opens, memory) =>
      if Waiting(s, t) && !s.tasks[t].acquired && LocalOf(s, s.tasks[t].process).owner.None? {
        AcquireKeeps(s, t, opens, memory);
      }
    case Poll(t, memory) => if Waiting(s, t) && s.tasks[t].descriptor.Some? { TryFileKeeps(s, t, memory); }
    case Abort(t) => if Waiting(s, t) { ReleaseKeeps(s, t); }
    case EnterAgain(t) => if t in s.tasks && s.tasks[t].token { NestKeeps(s, t, s.tasks[t].nested + 1); }
    case LeaveAgain(t) =>
      if t in s.tasks && s.tasks[t].nested > 0 {
        NestedIsAdmitted(s, t);
        NestKeeps(s, t, s.tasks[t].nested - 1);
      }
    case Finish(t) => if t in s.tasks && s.tasks[t].token { ReleaseKeeps(s, t); }
    case Die(p) => DieKeeps(s, p);
  }

  lemma NestedIsAdmitted(s: State, t: TaskId)
    requires Inv(s) && t in s.tasks && s.tasks[t].nested > 0
    ensures s.tasks[t].token
  {
    assert TaskFine(s.tasks[t], s.flocked, s.nextDescriptor);
  }

  /** The task has the queue lock; then it has opened the lock file, too. */
  function Locked(s: State, t: TaskId): State
    requires t in s.tasks
  {
    var task := s.tasks[t];
    s.(local := s.local[task.process := LocalOf(s, task.process).(owner := Some(t))], tasks := s.tasks[t := task.(acquired := true)])
  }

  function Opened(s: State, t: TaskId): State
    requires t in s.tasks
  {
    s.(tasks := s.tasks[t := s.tasks[t].(descriptor := Some(s.nextDescriptor))], nextDescriptor := s.nextDescriptor + 1)
  }

  lemma AcquireIs(s: State, t: TaskId, opens: bool, memory: bool)
    requires Waiting(s, t) && !s.tasks[t].acquired && LocalOf(s, s.tasks[t].process).owner.None?
    ensures t in Locked(s, t).tasks && t in Opened(Locked(s, t), t).tasks
    ensures Apply(s, Acquire(t, opens, memory)) ==
              if opens then TryFile(Opened(Locked(s, t), t), t, memory) else Release(Locked(s, t), t)
  {
    hide TryFile, Release;
    var task := s.tasks[t];
    assert s.tasks[t := task.(acquired := true)][t := task.(acquired := true, descriptor := Some(s.nextDescriptor))]
        == s.tasks[t := task.(acquired := true, descriptor := Some(s.nextDescriptor))];
  }

  lemma AcquireKeeps(s: State, t: TaskId, opens: bool, memory: bool)
    requires Inv(s) && Waiting(s, t) && !s.tasks[t].acquired && LocalOf(s, s.tasks[t].process).owner.None?
    ensures Inv(Apply(s, Acquire(t, opens, memory)))
  {
    assert s.tasks[t].descriptor.None? by {
      assert TaskFine(s.tasks[t], s.flocked, s.nextDescriptor);
    }
    hide Inv, TryFile, Release, Apply;
    AcquireIs(s, t, opens, memory);
    LockKeeps(s, t);
    if opens {
      OpenKeeps(Locked(s, t), t);
      TryFileKeeps(Opened(Locked(s, t), t), t, memory);
    } else {
      ReleaseKeeps(Locked(s, t), t);
    }
  }

  lemma {:induction false} EveryHistory(steps: seq<Step>)
    ensures Inv(Play(steps))
  {
    hide *;
    if steps == [] {
      Initially();
    } else {
      var front, last := steps[..|steps| - 1], steps[|steps| - 1];
      EveryHistory(front);
      StepKeeps(Play(front), last);
      PlayMore(front, last);
      assert steps == front + [last];
    }
  }

  lemma Initially()
    ensures Inv(Play([]))
  {
  }

  lemma PlayMore(front: seq<Step>, last: Step)
    ensures Play(front + [last]) == Apply(Play(front), last)
  {
    hide Apply;
    assert (front + [last])[..|front|] == front;
  }

  /** In every history at most one operation runs at a time, whatever process it belongs to. */
  lemma MutualExclusion(steps: seq<Step>, t: TaskId, u: TaskId)
    requires t in Play(steps).tasks && u in Play(steps).tasks && Play(steps).tasks[t].token && Play(steps).tasks[u].token
    ensures t == u
  {
    EveryHistory(steps);
    OneAdmitted(Play(steps), t, u);
  }

  /** The counter is the number of waiting tasks, never above eight, and a new task is turned away exactly
      when eight are waiting. */
  lemma QueueBound(steps: seq<Step>, t: TaskId, p: Process)
    requires t !in Play(steps).tasks
    ensures LocalOf(Play(steps), p).waiters == |WaitersOf(Play(steps).tasks, p)| <= MAX_WAITERS
    ensures t in Apply(Play(steps), Enter(t, p)).tasks <==> |WaitersOf(Play(steps).tasks, p)| < MAX_WAITERS
  {
    EveryHistory(steps);
    var s := Play(steps);
    hide Play;
    if p !in s.local {
      assert forall u :: u !in WaitersOf(s.tasks, p);
      Inhabited(WaitersOf(s.tasks, p));
    }
  }

  /** With no task inside, nothing is held: no waiters, no activity, both locks free. */
  lemma NothingLeaks(steps: seq<Step>, p: Process)
    requires Play(steps).tasks == map[]
    ensures Play(steps).flocked.None? && LocalOf(Play(steps), p) == Local(None, 0, 0)
  {
    EveryHistory(steps);
    var s := Play(steps);
    hide Play;
    if p in s.local {
      assert WaitersOf(s.tasks, p) == {};
      assert !Runs(s.tasks, p);
    }
  }

  /** What another task can see of the gate. */
  predicate SameGate(a: State, b: State)
  {
    a.tasks == b.tasks && a.flocked == b.flocked && a.local.Keys <= b.local.Keys
    && forall p :: p in b.local ==> LocalOf(a, p) == LocalOf(b, p)
  }

  lemma FreshDescriptor(s: State)
    requires Inv(s) && s.flocked.Some?
    ensures s.flocked.value < s.nextDescriptor
  {
    var t :| t in s.tasks && s.tasks[t].descriptor == s.flocked;
    assert TaskFine(s.tasks[t], s.flocked, s.nextDescriptor);
  }

  lemma NotActive(s: State, p: Process)
    requires Inv(s) && s.flocked.None?
    ensures LocalOf(s, p).active == 0
  {
    assert !Runs(s.tasks, p) by {
      forall t | t in s.tasks
        ensures !s.tasks[t].token
      {
        assert TaskFine(s.tasks[t], s.flocked, s.nextDescriptor);
      }
    }
  }

  lemma Undone(s: State, after: State, p: Process)
    requires after.tasks == s.tasks && after.flocked == s.flocked && after.local.Keys == s.local.Keys + {p}
    requires (forall q :: q in s.local && q != p ==> after.local[q] == s.local[q]) && after.local[p] == LocalOf(s, p)
    ensures SameGate(s, after)
  {
  }

  lemma AbortUndoes(s: State, t: TaskId, p: Process)
    requires t !in s.tasks && LocalOf(s, p).waiters < MAX_WAITERS
    ensures SameGate(s, Apply(Apply(s, Enter(t, p)), Abort(t)))
  {
    var after := Apply(Apply(s, Enter(t, p)), Abort(t));
    assert s.tasks[t := Task(p, false, None, false, 0)] - {t} == s.tasks;
    Undone(s, after, p);
  }

  lemma FailureUndoes(s: State, t: TaskId, p: Process, opens: bool, memory: bool)
    requires t !in s.tasks && LocalOf(s, p).waiters < MAX_WAITERS && LocalOf(s, p).owner.None?
    requires !opens || (s.flocked.None? && !memory)
    ensures SameGate(s, Apply(Apply(s, Enter(t, p)), Acquire(t, opens, memory)))
  {
    var after := Apply(Apply(s, Enter(t, p)), Acquire(t, opens, memory));
    assert after.tasks == s.tasks;
    Undone(s, after, p);
  }

  lemma PollingUndoes(s: State, t: TaskId, p: Process, memory: bool)
    requires t !in s.tasks && LocalOf(s, p).waiters < MAX_WAITERS && LocalOf(s, p).owner.None?
    requires s.flocked.Some? && s.flocked.value < s.nextDescriptor
    ensures SameGate(s, Apply(Apply(Apply(s, Enter(t, p)), Acquire(t, true, memory)), Abort(t)))
  {
    var after := Apply(Apply(Apply(s, Enter(t, p)), Acquire(t, true, memory)), Abort(t));
    assert after.tasks == s.tasks;
    Undone(s, after, p);
  }

  lemma FinishUndoes(s: State, t: TaskId, p: Process)
    requires t !in s.tasks && LocalOf(s, p).waiters < MAX_WAITERS && LocalOf(s, p).owner.None?
    requires s.flocked.None? && LocalOf(s, p).active == 0
    ensures SameGate(s, Apply(Apply(Apply(s, Enter(t, p)), Acquire(t, true, true)), Finish(t)))
  {
    var after := Apply(Apply(Apply(s, Enter(t, p)), Acquire(t, true, true)), Finish(t));
    assert after.tasks == s.tasks;
    Undone(s, after, p);
  }

  /** Entering and leaving cancel out, on every way out: cancelled or timed out in the queue, unable to open
      the lock file, cancelled or timed out while another process holds it, short of memory, or done. */
  lemma InAndOut(s: State, t: TaskId, p: Process, memory: bool)
    requires Inv(s) && t !in s.tasks && LocalOf(s, p).waiters < MAX_WAITERS
    ensures SameGate(s, Apply(Apply(s, Enter(t, p)), Abort(t)))
    ensures LocalOf(s, p).owner.None? ==> SameGate(s, Apply(Apply(s, Enter(t, p)), Acquire(t, false, memory)))
    ensures LocalOf(s, p).owner.None? && s.flocked.Some? ==>
      SameGate(s, Apply(Apply(Apply(s, Enter(t, p)), Acquire(t, true, memory)), Abort(t)))
    ensures LocalOf(s, p).owner.None? && s.flocked.None? ==>
      SameGate(s, Apply(Apply(s, Enter(t, p)), Acquire(t, true, false)))
    ensures LocalOf(s, p).owner.None? && s.flocked.None? ==>
      SameGate(s, Apply(Apply(Apply(s, Enter(t, p)), Acquire(t, true, true)), Finish(t)))
  {
    hide Apply, SameGate, Inv;
    AbortUndoes(s, t, p);
    if LocalOf(s, p).owner.None? {
      FailureUndoes(s, t, p, false, memory);
      if s.flocked.Some? {
        FreshDescriptor(s);
        PollingUndoes(s, t, p, memory);
      } else {
        FailureUndoes(s, t, p, true, false);
        NotActive(s, p);
        FinishUndoes(s, t, p);
      }
    }
  }

  // ---------------------------------------------------------------- the context manager, step by step

  class Gate {
    var local: map<Process, Local>
    var tasks: map<TaskId, Task>
    var flocked: Option<nat>
    var nextDescriptor: nat

    function Now(): State
      reads this
    {
      State(local, tasks, flocked, nextDescriptor)
    }

    constructor ()
      ensures Now() == IDLE
    {
      local, tasks, flocked, nextDescriptor := map[], map[], None, 0;
    }

    method SetLocal(p: Process, l: Local)
      modifies this`local
      ensures local == old(local)[p := l]
    {
      local := local[p := l];
    }

    /** False is the busy response of a full queue. */
    method Join(t: TaskId, p: Process) returns (queued: bool)
      requires t !in tasks
      modifies this
      ensures Now() == Apply(old(Now()), Enter(t, p))
      ensures queued <==> LocalOf(old(Now()), p).waiters < MAX_WAITERS
    {
      var mine := LocalOf(Now(), p);
      if mine.waiters >= MAX_WAITERS {
        return false;
      }
      SetLocal(p, mine.(waiters := mine.waiters + 1));
      tasks := tasks[t := Task(p, false, None, false, 0)];
      queued := true;
    }

    /** The queue lock is free: take it, open the lock file and try it once. */
    method TakeTurn(t: TaskId, opens: bool, memory: bool)
      requires Waiting(Now(), t) && !tasks[t].acquired && LocalOf(Now(), tasks[t].process).owner.None?
      modifies this
      ensures Now() == Apply(old(Now()), Acquire(t, opens, memory))
    {
      var task := tasks[t];
      SetLocal(task.process, LocalOf(Now(), task.process).(owner := Some(t)));
      task := task.(acquired := true);
      tasks := tasks[t := task];
      if !opens {
        Exit(t);
        return;
      }
      task := task.(descriptor := Some(nextDescriptor));
      tasks := tasks[t := task];
      nextDescriptor := nextDescriptor + 1;
      assert tasks == old(tasks)[t := task];
      Try(t, memory);
    }

    /** One attempt at the file lock; admission follows at once, unless memory is short. */
    method Try(t: TaskId, memory: bool)
      requires Waiting(Now(), t) && tasks[t].descriptor.Some?
      modifies this
      ensures Now() == TryFile(old(Now()), t, memory)
    {
      if flocked.Some? {
        return;
      }
      flocked := tasks[t].descriptor;
      if !memory {
        Exit(t);
        return;
      }
      var mine := LocalOf(Now(), tasks[t].process);
      mine := mine.(waiters := mine.waiters - 1);
      mine := mine.(active := 1);
      SetLocal(tasks[t].process, mine);
      tasks := tasks[t := tasks[t].(token := true)];
    }

    /** The last block, reached on every path. */
    method Exit(t: TaskId)
      requires t in tasks
      modifies this
      ensures Now() == Release(old(Now()), t)
    {
      var task := tasks[t];
      var mine := LocalOf(Now(), task.process);
      if task.token {
        mine := mine.(active := 0);
      } else {
        mine := mine.(waiters := mine.waiters - 1);
      }
      if task.descriptor.Some? && flocked == task.descriptor {
        flocked := None;
      }
      if task.acquired {
        mine := mine.(owner := None);
      }
      SetLocal(task.process, mine);
      tasks := tasks - {t};
    }
  }
}
