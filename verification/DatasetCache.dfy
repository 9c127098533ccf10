/** The cache of report datasets: a small LRU with byte accounting, fenced by a generation number, whose
    loads are serialised per key by reference-counted locks. */
module DatasetCache {
  import opened Prelude

  const TTL := 120
  const MAX_ENTRIES := 2
  const MAX_ENTRY_BYTES := 33554432
  const MAX_TOTAL_BYTES := 50331648

  /** `started` is the event at which the load of this value began, `used` the last store or hit. */
  datatype Entry = Entry(key: Text, created: int, size: nat, started: nat, used: nat)

  /** Where a task is between entering the lock table and leaving it. */
  datatype Phase = Waiting | Restoring | Loading(generation: nat, started: nat) | Preparing(generation: nat, started: nat)

  datatype Task = Task(key: Text, lock: nat, phase: Phase)

  /** `events` counts steps, `invalidated` is the step of the last invalidation; both only observe. */
  datatype State = State(cache: seq<Entry>, bytes: int, generation: nat, locks: map<Text, nat>,
                         users: map<Text, int>, nextLock: nat, tasks: map<nat, Task>, events: nat, invalidated: nat)

  // ---------------------------------------------------------------- the entries

  function Total(cache: seq<Entry>): nat
  {
    if cache == [] then 0 else cache[0].size + Total(cache[1..])
  }

  function Remove(cache: seq<Entry>, key: Text): seq<Entry>
  {
    if cache == [] then []
    else if cache[0].key == key then cache[1..]
    else [cache[0]] + Remove(cache[1..], key)
  }

  function Get(cache: seq<Entry>, key: Text): Option<Entry>
  {
    if cache == [] then None else if cache[0].key == key then Some(cache[0]) else Get(cache[1..], key)
  }

  /** Oldest entries go first, until the new one fits. */
  function Evict(cache: seq<Entry>, bytes: int, size: nat): seq<Entry>
  {
    if cache != [] && (bytes + size > MAX_TOTAL_BYTES || |cache| >= MAX_ENTRIES)
    then Evict(cache[1..], bytes - cache[0].size, size)
    else cache
  }

  /** An expired entry is dropped, a live one becomes the most recently used. */
  function Lookup(s: State, key: Text, now: int): (State, bool)
  {
    var entry := Get(s.cache, key);
    if entry.None? then (s, false)
    else if now - entry.value.created >= TTL then
      (s.(cache := Remove(s.cache, key), bytes := s.bytes - entry.value.size), false)
    else (s.(cache := Remove(s.cache, key) + [entry.value.(used := s.events)]), true)
  }

  function Publish(s: State, key: Text, created: int, size: nat, started: nat): State
  {
    var previous := Get(s.cache, key);
    var bytes := if previous.Some? then s.bytes - previous.value.size else s.bytes;
    var others := Remove(s.cache, key);
    var kept := Evict(others, bytes, size);
    s.(cache := kept + [Entry(key, created, size, started, s.events)],
       bytes := bytes - (Total(others) - Total(kept)) + size)
  }

  // ---------------------------------------------------------------- the lock table

  /** Take the lock object of the key, or make one, and count as its user. */
  function Enter(s: State, t: nat, key: Text): State
  {
    var lock := if key in s.locks then s.locks[key] else s.nextLock;
    s.(locks := s.locks[key := lock], nextLock := s.nextLock + 1,
       users := s.users[key := (if key in s.users then s.users[key] else 0) + 1],
       tasks := s.tasks[t := Task(key, lock, Waiting)])
  }

  /** Every way out: one user less, and the lock object goes with its last user. */
  function Leave(s: State, t: nat): State
    requires t in s.tasks && s.tasks[t].key in s.users
  {
    var key, lock := s.tasks[t].key, s.tasks[t].lock;
    var left := s.users[key] - 1;
    var last := left == 0 && key in s.locks && s.locks[key] == lock;
    s.(tasks := s.tasks - {t},
       users := if last then s.users - {key} else s.users[key := left],
       locks := if last then s.locks - {key} else s.locks)
  }

  predicate Holds(t: Task)
  {
    !t.phase.Waiting?
  }

  /** Both hold the same lock object. */
  predicate Collides(t: Task, u: Task)
  {
    Holds(t) && Holds(u) && t.lock == u.lock
  }

  predicate Free(s: State, lock: nat)
  {
    forall t :: t in s.tasks && s.tasks[t].lock == lock ==> !Holds(s.tasks[t])
  }

  datatype Step =
    | Ask(task: nat, key: Text, now: int)
    | Acquire(task: nat, now: int)
    | Loaded(task: nat)
    | Prepared(task: nat, size: nat, now: int)
    | Quit(task: nat)
    | Invalidate

  predicate Inside(s: State, t: nat)
  {
    t in s.tasks && s.tasks[t].key in s.users
  }

  /** One uninterrupted stretch of a task. A task may quit at any time: it was cancelled, its load or its
      restoring failed, memory ran out, or it is done. */
  function Act(s: State, step: Step): State
  {
    match step
    case Ask(t, key, now) =>
      if t in s.tasks then s else
        var (looked, hit) := Lookup(s, key, now);
        if hit then looked else Enter(looked, t, key)
    case Acquire(t, now) =>
      if !Inside(s, t) || !s.tasks[t].phase.Waiting? || !Free(s, s.tasks[t].lock) then s else
        var (looked, hit) := Lookup(s, s.tasks[t].key, now);
        var phase := if hit then Restoring else Loading(s.generation, s.events);
        looked.(tasks := s.tasks[t := s.tasks[t].(phase := phase)])
    case Loaded(t) =>
      if !Inside(s, t) || !s.tasks[t].phase.Loading? then s
      else if s.tasks[t].phase.generation != s.generation then Leave(s, t)
      else s.(tasks := s.tasks[t := s.tasks[t].(phase := Preparing(s.tasks[t].phase.generation, s.tasks[t].phase.started))])
    case Prepared(t, size, now) =>
      if !Inside(s, t) || !s.tasks[t].phase.Preparing? then s
      else if size > MAX_ENTRY_BYTES || s.tasks[t].phase.generation != s.generation then Leave(s, t)
      else Leave(Publish(s, s.tasks[t].key, now, size, s.tasks[t].phase.started), t)
    case Quit(t) => if Inside(s, t) then Leave(s, t) else s
    case Invalidate => s.(generation := s.generation + 1, cache := [], bytes := 0, invalidated := s.events)
  }

  function Apply(s: State, step: Step): State
  {
    var s' := Act(s, step);
    s'.(events := s.events + 1)
  }

  const EMPTY := State([], 0, 0, map[], map[], 0, map[], 1, 0)

  function Play(steps: seq<Step>): State
  {
    if steps == [] then EMPTY else Apply(Play(steps[..|steps| - 1]), steps[|steps| - 1])
  }

  // ---------------------------------------------------------------- what every interleaving keeps

  predicate Distinct(cache: seq<Entry>)
  {
    forall i, j :: 0 <= i < j < |cache| ==> cache[i].key != cache[j].key
  }

  /** Least recently used first. */
  predicate ByUse(cache: seq<Entry>, events: nat)
  {
    && (forall i, j :: 0 <= i < j < |cache| ==> cache[i].used < cache[j].used)
    && (forall i :: 0 <= i < |cache| ==> cache[i].used < events)
  }

  /** Every entry comes from a load that began after the last invalidation, and is not too large. */
  predicate Current(cache: seq<Entry>, invalidated: nat)
  {
    forall i :: 0 <= i < |cache| ==> cache[i].started > invalidated && cache[i].size <= MAX_ENTRY_BYTES
  }

  predicate CacheFine(cache: seq<Entry>, bytes: int, events: nat, invalidated: nat)
  {
    && Distinct(cache) && ByUse(cache, events) && Current(cache, invalidated)
    && bytes == Total(cache) <= MAX_TOTAL_BYTES && |cache| <= MAX_ENTRIES
  }

  predicate CacheOk(s: State)
  {
    CacheFine(s.cache, s.bytes, s.events, s.invalidated)
  }

  function UsersOf(tasks: map<nat, Task>, key: Text): set<nat>
  {
    set t | t in tasks && tasks[t].key == key
  }

  predicate Counted(users: map<Text, int>, tasks: map<nat, Task>)
  {
    forall k :: k in users ==> users[k] == |UsersOf(tasks, k)| && users[k] > 0
  }

  predicate Shared(locks: map<Text, nat>, tasks: map<nat, Task>)
  {
    forall t :: t in tasks ==> tasks[t].key in locks && tasks[t].lock == locks[tasks[t].key]
  }

  predicate OwnLocks(locks: map<Text, nat>, nextLock: nat)
  {
    && (forall k, l :: k in locks && l in locks && k != l ==> locks[k] != locks[l])
    && (forall k :: k in locks ==> locks[k] < nextLock)
  }

  predicate OneHolder(tasks: map<nat, Task>)
  {
    forall t, u :: t in tasks && u in tasks && Collides(tasks[t], tasks[u]) ==> t == u
  }

  /** A key has a lock object exactly while it has users; all of them use that object, one at a time. */
  predicate LocksFine(locks: map<Text, nat>, users: map<Text, int>, nextLock: nat, tasks: map<nat, Task>)
  {
    && locks.Keys == users.Keys && Counted(users, tasks) && Shared(locks, tasks)
    && OwnLocks(locks, nextLock) && OneHolder(tasks)
  }

  predicate LocksOk(s: State)
  {
    LocksFine(s.locks, s.users, s.nextLock, s.tasks)
  }

  /** A load that still carries the current generation began after the last invalidation. */
  predicate LoadsFine(tasks: map<nat, Task>, generation: nat, invalidated: nat)
  {
    forall t :: t in tasks ==> LoadFine(tasks[t].phase, generation, invalidated)
  }

  predicate LoadFine(p: Phase, generation: nat, invalidated: nat)
  {
    p.Loading? || p.Preparing? ==>
      p.generation <= generation && (p.generation == generation ==> p.started > invalidated)
  }

  predicate LoadsOk(s: State)
  {
    LoadsFine(s.tasks, s.generation, s.invalidated)
  }

  predicate Inv(s: State)
  {
    CacheOk(s) && LocksOk(s) && LoadsOk(s) && s.invalidated < s.events
  }

  lemma {:induction false} GetIs(cache: seq<Entry>, key: Text)
    ensures Get(cache, key).Some? ==> Get(cache, key).value in cache && Get(cache, key).value.key == key
    ensures Get(cache, key).None? ==> forall e :: e in cache ==> e.key != key
    ensures Total(Remove(cache, key)) == Total(cache) - if Get(cache, key).Some? then Get(cache, key).value.size else 0
    ensures |Remove(cache, key)| == |cache| - if Get(cache, key).Some? then 1 else 0
  {
    if cache != [] { GetIs(cache[1..], key); }
  }

  lemma {:induction false} RemoveAt(cache: seq<Entry>, key: Text) returns (i: nat)
    ensures i <= |cache| && forall j :: 0 <= j < i ==> cache[j].key != key
    ensures if i == |cache| then Remove(cache, key) == cache
            else cache[i].key == key && Remove(cache, key) == cache[..i] + cache[i + 1..]
  {
    if cache == [] {
      return 0;
    }
    if cache[0].key == key {
      return 0;
    }
    var k := RemoveAt(cache[1..], key);
    i := k + 1;
    assert cache == [cache[0]] + cache[1..];
  }

  lemma RemoveKeeps(cache: seq<Entry>, key: Text, events: nat, invalidated: nat)
    requires Distinct(cache) && ByUse(cache, events) && Current(cache, invalidated)
    ensures var r := Remove(cache, key);
      && Distinct(r) && ByUse(r, events) && Current(r, invalidated)
      && forall i :: 0 <= i < |r| ==> r[i].key != key
  {
    var i := RemoveAt(cache, key);
    hide Remove;
    var r := Remove(cache, key);
    if i < |cache| {
      assert forall j :: 0 <= j < |r| ==> r[j] == cache[if j < i then j else j + 1];
    }
  }

  lemma {:induction false} TotalAppend(cache: seq<Entry>, e: Entry)
    ensures Total(cache + [e]) == Total(cache) + e.size
  {
    if cache == [] {
      assert cache + [e] == [e];
    } else {
      assert (cache + [e])[1..] == cache[1..] + [e];
      TotalAppend(cache[1..], e);
    }
  }

  predicate Fits(cache: seq<Entry>, size: nat)
  {
    Total(cache) + size <= MAX_TOTAL_BYTES && |cache| < MAX_ENTRIES
  }

  /** Eviction drops the entries used longest ago, and no more than needed: the rest fits, and with one more
      it would not. */
  lemma {:induction false} EvictIs(cache: seq<Entry>, bytes: int, size: nat) returns (d: nat)
    requires bytes == Total(cache) && size <= MAX_TOTAL_BYTES
    ensures d <= |cache| && Evict(cache, bytes, size) == cache[d..] && Fits(cache[d..], size)
    ensures d > 0 ==> !Fits(cache[d - 1..], size)
  {
    assert cache[0..] == cache;
    if cache != [] && (bytes + size > MAX_TOTAL_BYTES || |cache| >= MAX_ENTRIES) {
      var rest := cache[1..];
      var k := EvictIs(rest, bytes - cache[0].size, size);
      d := k + 1;
      assert rest[k..] == cache[d..];
      if k > 0 {
        assert rest[k - 1..] == cache[d - 1..];
      }
    } else {
      d := 0;
    }
  }

  // ---------------------------------------------------------------- every step

  predicate EntriesOk(cache: seq<Entry>, events: nat, invalidated: nat)
  {
    Distinct(cache) && ByUse(cache, events) && Current(cache, invalidated)
  }

  lemma CacheIs(cache: seq<Entry>, bytes: int, events: nat, invalidated: nat)
    requires EntriesOk(cache, events, invalidated)
    requires bytes == Total(cache) <= MAX_TOTAL_BYTES && |cache| <= MAX_ENTRIES
    ensures CacheFine(cache, bytes, events, invalidated)
  {
    hide Distinct, ByUse, Current, Total;
  }

  lemma AppendKeeps(cache: seq<Entry>, e: Entry, events: nat, invalidated: nat)
    requires EntriesOk(cache, events, invalidated) && e.used == events
    requires e.started > invalidated && e.size <= MAX_ENTRY_BYTES && forall i :: 0 <= i < |cache| ==> cache[i].key != e.key
    ensures EntriesOk(cache + [e], events + 1, invalidated) && Total(cache + [e]) == Total(cache) + e.size
  {
    TotalAppend(cache, e);
    hide Total;
  }

  lemma LaterKeeps(cache: seq<Entry>, events: nat, invalidated: nat)
    requires EntriesOk(cache, events, invalidated)
    ensures EntriesOk(cache, events + 1, invalidated)
  {
  }

  lemma LookupKeeps(s: State, key: Text, now: int)
    requires CacheOk(s)
    ensures var (looked, hit) := Lookup(s, key, now); CacheOk(looked.(events := s.events + 1))
  {
    GetIs(s.cache, key);
    RemoveKeeps(s.cache, key, s.events, s.invalidated);
    var entry, rest := Get(s.cache, key), Remove(s.cache, key);
    assert EntriesOk(s.cache, s.events, s.invalidated) && EntriesOk(rest, s.events, s.invalidated);
    assert entry.Some? ==> entry.value.started > s.invalidated && entry.value.size <= MAX_ENTRY_BYTES;
    hide Total, Remove, Get, EntriesOk, CacheFine;
    if entry.None? {
      LaterKeeps(s.cache, s.events, s.invalidated);
      CacheIs(s.cache, s.bytes, s.events + 1, s.invalidated);
    } else if now - entry.value.created >= TTL {
      LaterKeeps(rest, s.events, s.invalidated);
      CacheIs(rest, s.bytes - entry.value.size, s.events + 1, s.invalidated);
    } else {
      AppendKeeps(rest, entry.value.(used := s.events), s.events, s.invalidated);
      CacheIs(rest + [entry.value.(used := s.events)], s.bytes, s.events + 1, s.invalidated);
    }
  }

  /** A hit was stored less than two minutes ago. */
  lemma HitIsFresh(s: State, key: Text, now: int)
    requires Lookup(s, key, now).1
    ensures exists e :: e in s.cache && e.key == key && now - e.created < TTL
  {
    GetIs(s.cache, key);
  }

  lemma SuffixKeeps(cache: seq<Entry>, d: nat, events: nat, invalidated: nat)
    requires EntriesOk(cache, events, invalidated) && d <= |cache|
    ensures EntriesOk(cache[d..], events, invalidated)
  {
  }

  lemma PublishKeeps(s: State, key: Text, created: int, size: nat, started: nat)
    requires CacheOk(s) && size <= MAX_ENTRY_BYTES && started > s.invalidated
    ensures CacheOk(Publish(s, key, created, size, started).(events := s.events + 1))
  {
    GetIs(s.cache, key);
    RemoveKeeps(s.cache, key, s.events, s.invalidated);
    var others, previous := Remove(s.cache, key), Get(s.cache, key);
    assert EntriesOk(others, s.events, s.invalidated);
    hide Total, Remove, Get, Evict, EntriesOk, CacheFine;
    var bytes := if previous.Some? then s.bytes - previous.value.size else s.bytes;
    var e := Entry(key, created, size, started, s.events);
    var d := MakeRoom(others, bytes, e, s.invalidated);
    CacheIs(others[d..] + [e], Total(others[d..]) + size, s.events + 1, s.invalidated);
  }

  lemma MakeRoom(others: seq<Entry>, bytes: int, e: Entry, invalidated: nat) returns (d: nat)
    requires EntriesOk(others, e.used, invalidated) && bytes == Total(others) && e.size <= MAX_ENTRY_BYTES
    requires e.started > invalidated && forall i :: 0 <= i < |others| ==> others[i].key != e.key
    ensures d <= |others| && Evict(others, bytes, e.size) == others[d..]
    ensures EntriesOk(others[d..] + [e], e.used + 1, invalidated) && |others[d..] + [e]| <= MAX_ENTRIES
    ensures Total(others[d..] + [e]) == Total(others[d..]) + e.size <= MAX_TOTAL_BYTES
  {
    d := EvictIs(others, bytes, e.size);
    hide Total, Evict, EntriesOk;
    SuffixKeeps(others, d, e.used, invalidated);
    AppendKeeps(others[d..], e, e.used, invalidated);
  }

  lemma OtherUsers(tasks: map<nat, Task>, tasks': map<nat, Task>, t: nat, key: Text, users: map<Text, int>)
    requires Counted(users, tasks)
    requires forall u :: u in tasks && u != t <==> u in tasks' && u != t
    requires forall u :: u in tasks && u != t ==> tasks'[u].key == tasks[u].key
    requires (t in tasks ==> tasks[t].key == key) && (t in tasks' ==> tasks'[t].key == key)
    ensures forall k :: k in users && k != key ==> users[k] == |UsersOf(tasks', k)| && users[k] > 0
  {
    forall k | k in users && k != key
      ensures users[k] == |UsersOf(tasks', k)|
    {
      assert UsersOf(tasks', k) == UsersOf(tasks, k);
    }
  }

  lemma OneMoreUser(users: map<Text, int>, tasks: map<nat, Task>, t: nat, task: Task)
    requires Counted(users, tasks) && t !in tasks && (task.key !in users ==> UsersOf(tasks, task.key) == {})
    ensures Counted(users[task.key := (if task.key in users then users[task.key] else 0) + 1], tasks[t := task])
  {
    OtherUsers(tasks, tasks[t := task], t, task.key, users);
    assert UsersOf(tasks[t := task], task.key) == UsersOf(tasks, task.key) + {t};
    hide UsersOf;
  }

  lemma EnterKeeps(s: State, t: nat, key: Text)
    requires LocksOk(s) && t !in s.tasks
    ensures LocksOk(Enter(s, t, key))
  {
    if key !in s.users {
      NoUsers(s, key);
    }
    var lock := if key in s.locks then s.locks[key] else s.nextLock;
    OneMoreUser(s.users, s.tasks, t, Task(key, lock, Waiting));
    var s' := Enter(s, t, key);
    hide UsersOf, Counted;
    assert OwnLocks(s'.locks, s'.nextLock) by { hide Shared, OneHolder; }
    hide OwnLocks;
    assert Shared(s'.locks, s'.tasks) by { hide OneHolder; }
    hide Shared;
    assert OneHolder(s'.tasks);
  }

  lemma NoUsers(s: State, key: Text)
    requires LocksOk(s) && key !in s.users
    ensures UsersOf(s.tasks, key) == {}
  {
    assert forall t :: t in s.tasks ==> s.tasks[t].key != key;
  }

  lemma OneUserLess(users: map<Text, int>, tasks: map<nat, Task>, t: nat)
    requires Counted(users, tasks) && t in tasks && tasks[t].key in users
    ensures var key, left := tasks[t].key, users[tasks[t].key] - 1;
      && Counted(if left == 0 then users - {key} else users[key := left], tasks - {t})
      && left == |UsersOf(tasks - {t}, key)|
  {
    var key := tasks[t].key;
    OtherUsers(tasks, tasks - {t}, t, key, users);
    assert UsersOf(tasks, key) == UsersOf(tasks - {t}, key) + {t};
    hide UsersOf;
  }

  lemma NobodyLeft(tasks: map<nat, Task>, key: Text)
    requires |UsersOf(tasks, key)| == 0
    ensures forall u :: u in tasks ==> tasks[u].key != key
  {
    assert UsersOf(tasks, key) == {};
    assert forall u :: u in tasks && tasks[u].key == key ==> u in UsersOf(tasks, key);
  }

  lemma SharedLess(locks: map<Text, nat>, tasks: map<nat, Task>, t: nat, key: Text)
    requires Shared(locks, tasks)
    ensures Shared(locks, tasks - {t})
    ensures (forall u :: u in tasks - {t} ==> tasks[u].key != key) ==> Shared(locks - {key}, tasks - {t})
  {
  }

  lemma LeaveKeeps(s: State, t: nat)
    requires LocksOk(s) && Inside(s, t)
    ensures LocksOk(Leave(s, t))
  {
    var s', key := Leave(s, t), s.tasks[t].key;
    assert key in s.locks && s.locks[key] == s.tasks[t].lock;
    OneUserLess(s.users, s.tasks, t);
    assert OwnLocks(s'.locks, s'.nextLock);
    assert OneHolder(s'.tasks);
    hide Counted, UsersOf, OwnLocks, OneHolder;
    SharedLess(s.locks, s.tasks, t, key);
    if s.users[key] == 1 {
      NobodyLeft(s'.tasks, key);
    }
    hide Shared;
  }

  lemma PhaseKeeps(s: State, t: nat, phase: Phase)
    requires LocksOk(s) && t in s.tasks
    requires phase.Waiting? || Holds(s.tasks[t]) || Free(s, s.tasks[t].lock)
    ensures LocksOk(s.(tasks := s.tasks[t := s.tasks[t].(phase := phase)]))
  {
    var tasks := s.tasks[t := s.tasks[t].(phase := phase)];
    OtherUsers(s.tasks, tasks, t, s.tasks[t].key, s.users);
    assert UsersOf(tasks, s.tasks[t].key) == UsersOf(s.tasks, s.tasks[t].key);
    hide UsersOf;
  }

  lemma LookupFrame(s: State, key: Text, now: int)
    ensures var (l, _) := Lookup(s, key, now); l == s.(cache := l.cache, bytes := l.bytes)
  {
    hide Remove, Get;
  }

  lemma LaterCache(s: State)
    requires CacheOk(s)
    ensures CacheOk(s.(events := s.events + 1))
  {
    LaterKeeps(s.cache, s.events, s.invalidated);
    hide Total;
  }

  lemma LoadsLess(tasks: map<nat, Task>, generation: nat, invalidated: nat, t: nat)
    requires LoadsFine(tasks, generation, invalidated)
    ensures LoadsFine(tasks - {t}, generation, invalidated)
  {
  }

  lemma LoadsMore(tasks: map<nat, Task>, generation: nat, invalidated: nat, t: nat, task: Task)
    requires LoadsFine(tasks, generation, invalidated) && LoadFine(task.phase, generation, invalidated)
    ensures LoadsFine(tasks[t := task], generation, invalidated)
  {
  }

  lemma AskKeeps(s: State, t: nat, key: Text, now: int)
    requires Inv(s)
    ensures Inv(Apply(s, Ask(t, key, now)))
  {
    LaterCache(s);
    LookupKeeps(s, key, now);
    LookupFrame(s, key, now);
    hide Lookup, CacheFine, LocksFine, LoadsFine;
    var (looked, hit) := Lookup(s, key, now);
    if t !in s.tasks && !hit {
      EnterKeeps(looked, t, key);
      var lock := if key in s.locks then s.locks[key] else s.nextLock;
      LoadsMore(s.tasks, s.generation, s.invalidated, t, Task(key, lock, Waiting));
    }
  }

  lemma AcquireKeeps(s: State, t: nat, now: int)
    requires Inv(s)
    ensures Inv(Apply(s, Acquire(t, now)))
  {
    LaterCache(s);
    if Inside(s, t) && s.tasks[t].phase.Waiting? && Free(s, s.tasks[t].lock) {
      LookupKeeps(s, s.tasks[t].key, now);
      LookupFrame(s, s.tasks[t].key, now);
      var (looked, hit) := Lookup(s, s.tasks[t].key, now);
      var phase := if hit then Restoring else Loading(s.generation, s.events);
      PhaseKeeps(s, t, phase);
      LoadsMore(s.tasks, s.generation, s.invalidated, t, s.tasks[t].(phase := phase));
      hide Free;
    }
    hide Lookup, CacheFine, LocksFine, LoadsFine, Free;
  }

  lemma LeaveInv(s: State, t: nat)
    requires LocksOk(s) && LoadsOk(s) && CacheOk(s.(events := s.events + 1)) && Inside(s, t) && s.invalidated < s.events
    ensures Inv(Leave(s, t).(events := s.events + 1))
  {
    LeaveKeeps(s, t);
    LoadsLess(s.tasks, s.generation, s.invalidated, t);
    hide LocksFine, CacheFine, LoadsFine;
  }

  lemma LoadedKeeps(s: State, t: nat)
    requires Inv(s)
    ensures Inv(Apply(s, Loaded(t)))
  {
    LaterCache(s);
    if Inside(s, t) && s.tasks[t].phase.Loading? {
      LeaveInv(s, t);
      var phase := Preparing(s.tasks[t].phase.generation, s.tasks[t].phase.started);
      PhaseKeeps(s, t, phase);
      LoadsMore(s.tasks, s.generation, s.invalidated, t, s.tasks[t].(phase := phase));
    }
    hide LocksFine, CacheFine, LoadsFine;
  }

  lemma PublishFrame(s: State, key: Text, created: int, size: nat, started: nat)
    ensures var p := Publish(s, key, created, size, started); p == s.(cache := p.cache, bytes := p.bytes)
  {
    hide Evict, Remove, Get, Total;
  }

  /** Storing the prepared entry, and leaving. */
  lemma StoredKeeps(s: State, t: nat, size: nat, now: int)
    requires Inv(s) && Inside(s, t) && s.tasks[t].phase.Preparing? && size <= MAX_ENTRY_BYTES
    requires s.tasks[t].phase.generation == s.generation
    ensures Inv(Leave(Publish(s, s.tasks[t].key, now, size, s.tasks[t].phase.started), t).(events := s.events + 1))
  {
    var key, started := s.tasks[t].key, s.tasks[t].phase.started;
    var stored := Publish(s, key, now, size, started);
    StartedSince(s, t);
    PublishKeeps(s, key, now, size, started);
    PublishFrame(s, key, now, size, started);
    hide Publish, CacheFine, LocksFine, LoadsFine, Leave;
    LeaveInv(stored, t);
  }

  /** Loads of this generation began after the last invalidation. */
  lemma StartedSince(s: State, t: nat)
    requires LoadsOk(s) && Inside(s, t) && s.tasks[t].phase.Preparing? && s.tasks[t].phase.generation == s.generation
    ensures s.tasks[t].phase.started > s.invalidated
  {
  }

  lemma PreparedIs(s: State, t: nat, size: nat, now: int)
    requires Inside(s, t)
    ensures Apply(s, Prepared(t, size, now)) ==
      if !s.tasks[t].phase.Preparing? then s.(events := s.events + 1)
      else if size > MAX_ENTRY_BYTES || s.tasks[t].phase.generation != s.generation then Leave(s, t).(events := s.events + 1)
      else Leave(Publish(s, s.tasks[t].key, now, size, s.tasks[t].phase.started), t).(events := s.events + 1)
  {
    if s.tasks[t].phase.Preparing? {
      PublishFrame(s, s.tasks[t].key, now, size, s.tasks[t].phase.started);
    }
    hide Publish, Leave;
  }

  lemma IdleKeeps(s: State)
    requires Inv(s)
    ensures Inv(s.(events := s.events + 1))
  {
    LaterCache(s);
    hide LocksFine, CacheFine, LoadsFine;
  }

  lemma LeaveKeepsInv(s: State, t: nat)
    requires Inv(s) && Inside(s, t)
    ensures Inv(Leave(s, t).(events := s.events + 1))
  {
    LaterCache(s);
    LeaveInv(s, t);
  }

  lemma PreparedKeeps(s: State, t: nat, size: nat, now: int)
    requires Inv(s)
    ensures Inv(Apply(s, Prepared(t, size, now)))
  {
    IdleKeeps(s);
    if Inside(s, t) {
      PreparedIs(s, t, size, now);
      hide Inv, Apply, Publish, Leave;
      if s.tasks[t].phase.Preparing? {
        PublishFrame(s, s.tasks[t].key, now, size, s.tasks[t].phase.started);
        if size <= MAX_ENTRY_BYTES && s.tasks[t].phase.generation == s.generation {
          StoredKeeps(s, t, size, now);
        } else {
          LeaveKeepsInv(s, t);
        }
      }
    } else {
      hide Inv, Publish, Leave;
    }
  }

  lemma QuitKeeps(s: State, t: nat)
    requires Inv(s)
    ensures Inv(Apply(s, Quit(t)))
  {
    IdleKeeps(s);
    if Inside(s, t) {
      LeaveKeepsInv(s, t);
    }
    hide Inv, Leave;
  }

  lemma InvalidateKeeps(s: State)
    requires Inv(s)
    ensures Inv(Apply(s, Invalidate))
  {
    hide LocksFine;
  }

  /** Loads, stores, lookups, expiries, cancellations and invalidations in any order: the byte counter is the
      sum of the entries and within its limits, no entry predates an invalidation, a key has a lock exactly
      while it has users, and at most one task holds it. */
  lemma {:induction false} StepKeeps(s: State, step: Step)
    requires Inv(s)
    ensures Inv(Apply(s, step))
  {
    hide Inv, Apply;
    match step
    case Ask(t, key, now) => AskKeeps(s, t, key, now);
    case Acquire(t, now) => AcquireKeeps(s, t, now);
    case Loaded(t) => LoadedKeeps(s, t);
    case Prepared(t, size, now) => PreparedKeeps(s, t, size, now);
    case Quit(t) => QuitKeeps(s, t);
    case Invalidate => InvalidateKeeps(s);
  }

  lemma {:induction false} EveryHistory(steps: seq<Step>)
    ensures Inv(Play(steps))
  {
    hide *;
    if steps == [] {
      Initially();
    } else {
      var front, last := steps[..|steps| - 1], steps[|steps| - 1];
      EveryHistory(front);
      StepKeeps(Play(front), last);
      PlayMore(front, last);
      assert steps == front + [last];
    }
  }

  lemma Initially()
    ensures Inv(Play([]))
  {
  }

  lemma PlayMore(front: seq<Step>, last: Step)
    ensures Play(front + [last]) == Apply(Play(front), last)
  {
    hide Apply;
    assert (front + [last])[..|front|] == front;
  }

  /** Two loads of one key are never under way together. */
  lemma LoadsNeverOverlap(steps: seq<Step>, t: nat, u: nat)
    requires t in Play(steps).tasks && u in Play(steps).tasks
    requires Play(steps).tasks[t].key == Play(steps).tasks[u].key
    requires Play(steps).tasks[t].phase.Loading? && Play(steps).tasks[u].phase.Loading?
    ensures t == u
  {
    EveryHistory(steps);
    hide Play, CacheOk, LoadsOk;
    var s := Play(steps);
    assert Collides(s.tasks[t], s.tasks[u]);
  }

  /** When no task is inside, the lock table is empty: nothing leaks. */
  lemma IdleIsEmpty(steps: seq<Step>)
    requires Play(steps).tasks == map[]
    ensures Play(steps).locks == map[] && Play(steps).users == map[]
  {
    EveryHistory(steps);
    hide Play, CacheFine, LoadsFine;
    var s := Play(steps);
    assert forall k :: UsersOf(s.tasks, k) == {};
    assert forall k :: k !in s.users.Keys;
    Inhabited(s.users.Keys);
  }

  // ---------------------------------------------------------------- the module state, changed in place

  lemma FindStep(cache: seq<Entry>, key: Text, i: nat)
    requires i < |cache| && cache[i].key != key
    ensures Get(cache[i..], key) == Get(cache[i + 1..], key)
    ensures cache[..i] + Remove(cache[i..], key) == cache[..i + 1] + Remove(cache[i + 1..], key)
  {
    assert cache[i..][1..] == cache[i + 1..];
    assert cache[..i + 1] == cache[..i] + [cache[i]];
    assert Remove(cache[i..], key) == [cache[i]] + Remove(cache[i + 1..], key);
    hide *;
    assert cache[..i] + ([cache[i]] + Remove(cache[i + 1..], key)) == (cache[..i] + [cache[i]]) + Remove(cache[i + 1..], key);
  }

  lemma FindEnd(cache: seq<Entry>, key: Text, i: nat)
    requires i <= |cache| && (i < |cache| ==> cache[i].key == key)
    ensures if i == |cache| then Get(cache[i..], key).None? && cache[..i] + Remove(cache[i..], key) == cache
            else Get(cache[i..], key) == Some(cache[i]) && Remove(cache[i..], key) == cache[i + 1..]
  {
    if i < |cache| {
      assert cache[i..][1..] == cache[i + 1..];
    }
  }

  class Cache {
    var cache: seq<Entry>
    var bytes: int
    var generation: nat
    var locks: map<Text, nat>
    var users: map<Text, int>
    var nextLock: nat
    ghost var tasks: map<nat, Task>
    var events: nat
    ghost var invalidated: nat

    ghost function Now(): State
      reads this
    {
      State(cache, bytes, generation, locks, users, nextLock, tasks, events, invalidated)
    }

    constructor ()
      ensures Now() == EMPTY
    {
      cache, bytes, generation, locks, users, nextLock := [], 0, 0, map[], map[], 0;
      tasks, events, invalidated := map[], 1, 0;
    }

    method Clear()
      modifies this
      ensures Now() == Act(old(Now()), Invalidate)
    {
      generation := generation + 1;
      cache := [];
      bytes := 0;
      invalidated := events;
    }

    /** The position of a key, or the length if it is absent. */
    method Find(key: Text) returns (i: nat)
      ensures i <= |cache|
      ensures if i == |cache| then Get(cache, key).None? && Remove(cache, key) == cache
              else Get(cache, key) == Some(cache[i]) && Remove(cache, key) == cache[..i] + cache[i + 1..]
    {
      i := 0;
      assert cache[0..] == cache;
      while i < |cache| && cache[i].key != key
        invariant i <= |cache|
        invariant Get(cache, key) == Get(cache[i..], key)
        invariant Remove(cache, key) == cache[..i] + Remove(cache[i..], key)
      {
        FindStep(cache, key, i);
        i := i + 1;
      }
      FindEnd(cache, key, i);
    }

    method LookUp(key: Text, now: int) returns (hit: bool)
      modifies this`cache, this`bytes
      ensures (Now(), hit) == Lookup(old(Now()), key, now)
    {
      var i := Find(key);
      if i == |cache| {
        return false;
      }
      var entry := cache[i];
      cache := cache[..i] + cache[i + 1..];
      if now - entry.created >= TTL {
        bytes := bytes - entry.size;
        return false;
      }
      cache := cache + [entry.(used := events)];
      hit := true;
    }

    /** Evict the least recently used entries until one of this size fits. */
    method MakeSpace(size: nat)
      modifies this`cache, this`bytes
      ensures cache == Evict(old(cache), old(bytes), size)
      ensures bytes == old(bytes) - (Total(old(cache)) - Total(cache))
    {
      while cache != [] && (bytes + size > MAX_TOTAL_BYTES || |cache| >= MAX_ENTRIES)
        invariant Evict(old(cache), old(bytes), size) == Evict(cache, bytes, size)
        invariant bytes == old(bytes) - (Total(old(cache)) - Total(cache))
        decreases |cache|
      {
        var removed := cache[0];
        cache := cache[1..];
        bytes := bytes - removed.size;
      }
    }

    method Store(key: Text, created: int, size: nat, started: nat)
      modifies this`cache, this`bytes
      ensures Now() == Publish(old(Now()), key, created, size, started)
    {
      var i := Find(key);
      hide Get, Remove, Evict, Total;
      if i < |cache| {
        bytes := bytes - cache[i].size;
        cache := cache[..i] + cache[i + 1..];
      }
      MakeSpace(size);
      cache := cache + [Entry(key, created, size, started, events)];
      bytes := bytes + size;
    }

    method EnterLock(ghost t: nat, key: Text) returns (lock: nat)
      requires key in users <==> key in locks
      modifies this
      ensures Now() == Enter(old(Now()), t, key) && lock == locks[key]
    {
      if key !in locks {
        locks := locks[key := nextLock];
      }
      lock := locks[key];
      nextLock := nextLock + 1;
      users := users[key := (if key in users then users[key] else 0) + 1];
      tasks := tasks[t := Task(key, lock, Waiting)];
    }

    method LeaveLock(ghost t: nat, key: Text, lock: nat)
      requires t in tasks && tasks[t].key == key && tasks[t].lock == lock && key in users
      modifies this
      ensures Now() == Leave(old(Now()), t)
    {
      users := users[key := users[key] - 1];
      if users[key] == 0 && key in locks && locks[key] == lock {
        users := users - {key};
        locks := locks - {key};
      }
      tasks := tasks - {t};
    }
  }
}
