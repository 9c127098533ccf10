/** The ledger of one daily churn job: its released events, the receipts of the receiver for them, and the
    job status. Delivery is at least once; the ledger behaves as if it were exactly once. */
module DeliveryLedger {
  import opened Prelude

  datatype Verdict = TaskCreated | TaskExists | Refused | ForReview | Unknown

  /** A receipt as it arrives. A digest is represented by the payload it is taken of. `clean` says that the
      reasons are at most thirty upper-case codes and that a task id, if any, is well formed. */
  datatype Receipt = Receipt(event: int, hash: Text, verdict: Verdict, task: Option<Text>,
                             created: Option<bool>, clean: bool)

  /** A receipt as it is stored. */
  datatype Entry = Entry(hash: Text, verdict: Verdict, created: bool, task: Option<Text>)

  datatype EventRow = EventRow(id: int, payload: Text)

  datatype Status =
    | Queued | Calculating | AwaitingEvidence | Blocked | Released | Delivering | Failed
    | Succeeded | Partial | Diagnosed

  datatype Kind = Daily | Diagnostic

  datatype Counters = Counters(allowed: nat, sent: nat, accepted: nat, tasksCreated: nat, tasksLinked: nat,
                               rejected: nat, failedAttempts: nat)

  datatype Job = Job(kind: Kind, day: Day, policyRevision: nat, status: Status, run: Option<nat>,
                     release: Option<nat>, counters: Counters)

  datatype Schedule = Schedule(revision: nat, approved: bool, enabled: bool)

  type Ledger = map<int, Entry>

  const PAGE_SIZE := 25
  const MAX_ATTEMPTS := 3

  predicate Accepted(v: Verdict)
  {
    v == TaskCreated || v == TaskExists
  }

  predicate Terminal(s: Status)
  {
    s == Succeeded || s == Partial || s == Diagnosed
  }

  // ---------------------------------------------------------------- control and guards

  datatype Control = Draft | Approve | EnableIt | DisableIt

  /** A draft revokes approval, approval never starts transmission, and both change the policy identity. */
  function Change(s: Schedule, c: Control, expected: nat): Schedule
  {
    if expected != s.revision then s else
      match c
      case Draft => Schedule(s.revision + 1, false, false)
      case Approve => Schedule(s.revision + 1, true, false)
      case EnableIt => if s.approved then s.(enabled := true) else s
      case DisableIt => s.(enabled := false)
  }

  predicate Guard(j: Job, s: Schedule, today: Day)
  {
    && (j.kind != Diagnostic ==> s.enabled && s.approved && s.revision == j.policyRevision)
    && j.day == today
  }

  // ---------------------------------------------------------------- pages

  function Unacknowledged(events: seq<EventRow>, ledger: Ledger): seq<EventRow>
  {
    if events == [] then [] else
      var rest := Unacknowledged(events[1..], ledger);
      if events[0].id in ledger then rest else [events[0]] + rest
  }

  function Page(j: Job, s: Schedule, events: seq<EventRow>, ledger: Ledger, today: Day): Option<seq<EventRow>>
  {
    if !Guard(j, s, today) then None
    else if j.kind != Daily || (j.status != Released && j.status != Delivering) || j.release.None? then Some([])
    else
      var left := Unacknowledged(events, ledger);
      Some(left[..Min(PAGE_SIZE, |left|)])
  }

  predicate Sorted(events: seq<EventRow>)
  {
    forall i, j :: 0 <= i < j < |events| ==> events[i].id < events[j].id
  }

  lemma {:induction false} UnacknowledgedHas(events: seq<EventRow>, ledger: Ledger, e: EventRow)
    ensures e in Unacknowledged(events, ledger) <==> e in events && e.id !in ledger
  {
    if events != [] {
      UnacknowledgedHas(events[1..], ledger, e);
      assert e in events <==> e == events[0] || e in events[1..];
    }
  }

  lemma {:induction false} UnacknowledgedSorted(events: seq<EventRow>, ledger: Ledger)
    requires Sorted(events)
    ensures Sorted(Unacknowledged(events, ledger))
  {
    if events != [] {
      UnacknowledgedSorted(events[1..], ledger);
      var rest := Unacknowledged(events[1..], ledger);
      forall i | 0 <= i < |rest|
        ensures events[0].id < rest[i].id
      {
        UnacknowledgedHas(events[1..], ledger, rest[i]);
        assert rest[i] in events[1..];
      }
      assert Unacknowledged(events, ledger) == if events[0].id in ledger then rest else [events[0]] + rest;
      hide Unacknowledged;
    }
  }

  lemma UnacknowledgedAre(events: seq<EventRow>, ledger: Ledger)
    requires Sorted(events)
    ensures Sorted(Unacknowledged(events, ledger))
    ensures forall e :: e in Unacknowledged(events, ledger) <==> e in events && e.id !in ledger
  {
    UnacknowledgedSorted(events, ledger);
    forall e
      ensures e in Unacknowledged(events, ledger) <==> e in events && e.id !in ledger
    {
      UnacknowledgedHas(events, ledger, e);
    }
  }

  /** A page holds exactly the lowest events without a receipt, in order: whatever is left out has a receipt
      or comes after a full page. */
  lemma PageIsLowest(j: Job, s: Schedule, events: seq<EventRow>, ledger: Ledger, today: Day)
    requires Sorted(events) && Guard(j, s, today)
    requires j.kind == Daily && (j.status == Released || j.status == Delivering) && j.release.Some?
    ensures var page := Page(j, s, events, ledger, today).value;
      && Sorted(page) && |page| <= PAGE_SIZE
      && (forall e :: e in page ==> e in events && e.id !in ledger)
      && (forall e :: e in events && e !in page ==>
            e.id in ledger || (|page| == PAGE_SIZE && forall p :: p in page ==> p.id < e.id))
  {
    UnacknowledgedAre(events, ledger);
    var left := Unacknowledged(events, ledger);
    var page := Page(j, s, events, ledger, today).value;
    forall e | e in events && e !in page && e.id !in ledger
      ensures |page| == PAGE_SIZE && forall p :: p in page ==> p.id < e.id
    {
      assert forall k :: 0 <= k < |page| ==> page[k] == left[k] && page[k] in page;
      var i :| 0 <= i < |left| && left[i] == e;
      assert |page| <= i;
    }
  }

  // ---------------------------------------------------------------- acknowledgement

  function CreatedFlag(r: Receipt): bool
  {
    if r.created.Some? then r.created.value else r.verdict == TaskCreated
  }

  function EntryOf(r: Receipt): Entry
  {
    Entry(r.hash, r.verdict, CreatedFlag(r), r.task)
  }

  predicate WellFormed(r: Receipt, events: seq<EventRow>)
  {
    && EventRow(r.event, r.hash) in events
    && r.verdict != Unknown && r.clean && (Accepted(r.verdict) ==> r.task.Some?)
  }

  predicate Conflicts(stored: Entry, r: Receipt)
  {
    || stored.hash != r.hash || stored.task != r.task || stored.created != CreatedFlag(r)
    || (stored.verdict != r.verdict && !(Accepted(stored.verdict) && Accepted(r.verdict)))
  }

  /** Take in one receipt: a new one is stored, a repeated one must agree with the stored one. */
  function TakeIn(ledger: Ledger, events: seq<EventRow>, r: Receipt): Option<Ledger>
  {
    if !WellFormed(r, events) then None
    else if r.event in ledger then (if Conflicts(ledger[r.event], r) then None else Some(ledger))
    else Some(ledger[r.event := EntryOf(r)])
  }

  /** All receipts of an acknowledgement, or none. */
  function TakeAll(ledger: Ledger, events: seq<EventRow>, rs: seq<Receipt>): Option<Ledger>
  {
    if rs == [] then Some(ledger) else
      var front := TakeAll(ledger, events, rs[..|rs| - 1]);
      if front.None? then None else TakeIn(front.value, events, rs[|rs| - 1])
  }

  predicate ProperBatch(rs: seq<Receipt>)
  {
    1 <= |rs| <= PAGE_SIZE && forall i, j :: 0 <= i < j < |rs| ==> rs[i].event != rs[j].event
  }

  function AcceptedIds(l: Ledger): set<int>
  {
    set e | e in l && Accepted(l[e].verdict)
  }

  function LinkedTasks(l: Ledger): set<Text>
  {
    set e | e in l && l[e].task.Some? :: l[e].task.value
  }

  function CreatedTasks(l: Ledger): set<Text>
  {
    set e | e in l && l[e].created && l[e].task.Some? :: l[e].task.value
  }

  function Recount(c: Counters, l: Ledger): Counters
  {
    var accepted := |AcceptedIds(l)|;
    AcceptedSubset(l);
    c.(sent := |l|, accepted := accepted, tasksCreated := |CreatedTasks(l)|, tasksLinked := |LinkedTasks(l)|,
       rejected := |l| - accepted)
  }

  lemma AcceptedSubset(l: Ledger)
    ensures |AcceptedIds(l)| <= |l|
  {
    assert l.Keys == AcceptedIds(l) + (l.Keys - AcceptedIds(l));
  }

  function StatusAfter(l: Ledger, allowed: nat): Status
  {
    if |l| == allowed then (if |AcceptedIds(l)| == allowed then Succeeded else Partial) else Delivering
  }

  // ---------------------------------------------------------------- the job as a state machine

  /** What the receiver holds for an event: the task, and whether it was created for this release. */
  datatype Task = Task(id: Text, created: bool)

  datatype Mail = Mail(release: nat, receipts: seq<Receipt>)

  /** `receiver` and `mail` are the outside world: tasks at the receiver, and every answer it ever gave. */
  datatype State = State(schedule: Schedule, job: Job, events: seq<EventRow>, ledger: Ledger,
                         receiver: map<int, Task>, mail: seq<Mail>)

  datatype Calculation = StillRunning(current: Option<nat>) | Ready(finished: nat) | NotAllowed(last: Option<nat>)

  datatype Outcome = Declined(ready: nat) | NewRelease(id: nat, events: seq<EventRow>)

  datatype Step =
    | SetPolicy(control: Control, expected: nat)
    | Calculate(result: Calculation, today: Day)
    | Authorize(outcome: Outcome, today: Day)
    | Deliver(answers: seq<Receipt>, receiver: map<int, Task>, today: Day)
    | AckMail(index: nat)
    | AckOther(receipts: seq<Receipt>)
    | Failure
    | Retry(today: Day)

  function EventsOf(s: State): seq<EventRow>
  {
    if s.job.release.None? then [] else s.events
  }

  /** The acknowledgement command; None is a rejected one, which is rolled back. */
  function Acknowledge(s: State, rs: seq<Receipt>): Option<State>
  {
    if !ProperBatch(rs) then None else
      var taken := TakeAll(s.ledger, EventsOf(s), rs);
      if taken.None? then None else
        var counters := Recount(s.job.counters, taken.value);
        Some(s.(ledger := taken.value,
                job := s.job.(counters := counters, status := StatusAfter(taken.value, counters.allowed))))
  }

  /** One release holds one event for every ready candidate, and there is at least one. */
  function Release(s: State, outcome: Outcome, today: Day): State
  {
    var j := s.job;
    if !Guard(j, s.schedule, today) || j.kind != Daily
       || (j.status != AwaitingEvidence && j.status != Blocked) || j.run.None? then s
    else match outcome
      case Declined(ready) => s.(job := j.(status := Blocked, counters := j.counters.(allowed := ready)))
      case NewRelease(id, events) =>
        if events == [] || !Sorted(events) || j.release.Some? then s
        else s.(events := events, job := j.(release := Some(id), status := Released,
                                            counters := j.counters.(allowed := |events|)))
  }

  predicate Holds(receiver: map<int, Task>, event: int, task: Text, created: bool)
  {
    event in receiver && receiver[event] == Task(task, created)
  }

  /** The tasks that receipts name are those the receiver holds for the events. */
  predicate Named(receiver: map<int, Task>, rs: seq<Receipt>)
  {
    forall i :: 0 <= i < |rs| && rs[i].task.Some? ==>
      Holds(receiver, rs[i].event, rs[i].task.value, CreatedFlag(rs[i]))
  }

  /** The receiver is idempotent: a task it holds for an event stays, and an answer names no other one. */
  predicate Idempotent(before: map<int, Task>, after: map<int, Task>, rs: seq<Receipt>)
  {
    Extends(before, after) && Named(after, rs)
  }

  /** A complete answer: one receipt for every event of the page, in order. */
  predicate Answers(page: seq<EventRow>, rs: seq<Receipt>, receiver: map<int, Task>)
  {
    && |rs| == |page| && Named(receiver, rs)
    && forall i :: 0 <= i < |rs| ==>
         && rs[i].event == page[i].id && rs[i].hash == page[i].payload
         && (Accepted(rs[i].verdict) ==> rs[i].task.Some?)
  }

  predicate Extends(before: map<int, Task>, after: map<int, Task>)
  {
    forall e :: e in before ==> e in after && after[e] == before[e]
  }

  function Apply(s: State, step: Step): State
  {
    match step
    case SetPolicy(c, expected) => s.(schedule := Change(s.schedule, c, expected))
    case Calculate(result, today) =>
      if !Guard(s.job, s.schedule, today) || (s.job.status != Queued && s.job.status != Calculating) then s
      else (match result
            case StillRunning(run) => s.(job := s.job.(run := run, status := Calculating))
            case Ready(run) =>
              s.(job := s.job.(run := Some(run), counters := Counters(0, 0, 0, 0, 0, 0, 0),
                               status := if s.job.kind == Diagnostic then Diagnosed else AwaitingEvidence))
            case NotAllowed(run) => s.(job := s.job.(run := run, status := Blocked)))
    case Authorize(outcome, today) => Release(s, outcome, today)
    case Deliver(answers, receiver, today) =>
      var page := Page(s.job, s.schedule, s.events, s.ledger, today);
      if page.None? || page.value == [] || s.job.release.None?
         || !Idempotent(s.receiver, receiver, answers) then s
      else s.(receiver := receiver, mail := s.mail + [Mail(s.job.release.value, answers)])
    case AckMail(i) =>
      if i >= |s.mail| || s.job.release != Some(s.mail[i].release) then s else
        var next := Acknowledge(s, s.mail[i].receipts);
        if next.None? then s else next.value
    case AckOther(rs) =>
      var next := Acknowledge(s, rs);
      if next.None? then s else next.value
    case Failure =>
      if Terminal(s.job.status) then s else
        var attempts := s.job.counters.failedAttempts + 1;
        s.(job := s.job.(counters := s.job.counters.(failedAttempts := attempts),
                         status := if attempts >= MAX_ATTEMPTS then Failed else s.job.status))
    case Retry(today) =>
      if !Guard(s.job, s.schedule, today) || (s.job.status != Failed && s.job.status != Blocked) then s
      else s.(job := s.job.(counters := s.job.counters.(failedAttempts := 0),
                            status := if s.job.release.Some? then Released else Queued))
  }

  function Initial(schedule: Schedule, kind: Kind, day: Day): State
  {
    State(schedule, Job(kind, day, schedule.revision, Queued, None, None, Counters(0, 0, 0, 0, 0, 0, 0)),
          [], map[], map[], [])
  }

  function Play(s: State, steps: seq<Step>): State
  {
    if steps == [] then s else Apply(Play(s, steps[..|steps| - 1]), steps[|steps| - 1])
  }

  // ---------------------------------------------------------------- what every history keeps

  predicate AllAcknowledged(s: State)
  {
    s.job.release.Some? && forall e :: e in s.events ==> e.id in s.ledger
  }

  predicate AllAccepted(s: State)
  {
    forall e :: e in s.ledger ==> Accepted(s.ledger[e].verdict)
  }

  /** Every receipt belongs to a released event and carries its payload. */
  predicate LedgerOk(events: seq<EventRow>, l: Ledger)
  {
    forall e :: e in l ==> EventRow(e, l[e].hash) in events && (Accepted(l[e].verdict) ==> l[e].task.Some?)
  }

  predicate Inv(s: State)
  {
    && Sorted(s.events) && LedgerOk(EventsOf(s), s.ledger)
    && (s.job.release.Some? ==>
          && s.events != [] && s.job.counters.allowed == |s.events|
          && s.job.status in {Released, Delivering, Failed, Succeeded, Partial})
    && (s.job.release.None? ==> s.job.status in {Queued, Calculating, AwaitingEvidence, Blocked, Failed, Diagnosed})
    && (s.job.status == Succeeded || s.job.status == Partial <==> AllAcknowledged(s))
    && (s.job.status == Succeeded <==> AllAcknowledged(s) && AllAccepted(s))
    && s.job.counters == Recount(s.job.counters, s.ledger)
  }

  /** What can never be undone. */
  predicate Evolves(s: State, s': State)
  {
    && (forall e :: e in s.ledger ==> e in s'.ledger && s'.ledger[e] == s.ledger[e])
    && (s.job.release.Some? ==> s'.job.release == s.job.release && s'.events == s.events)
    && (Terminal(s.job.status) ==> s'.job.status == s.job.status)
    && Extends(s.receiver, s'.receiver)
  }

  function Ids(events: seq<EventRow>): set<int>
  {
    set e | e in events :: e.id
  }

  lemma {:induction false} IdCount(events: seq<EventRow>)
    requires Sorted(events)
    ensures |Ids(events)| == |events|
  {
    if events != [] {
      var front, last := events[..|events| - 1], events[|events| - 1];
      IdCount(front);
      assert forall e :: e in front ==> e.id < last.id;
      assert events == front + [last];
      assert Ids(events) == Ids(front) + {last.id};
    }
  }

  lemma {:induction false} LedgerWithin(events: seq<EventRow>, l: Ledger)
    requires LedgerOk(events, l)
    ensures l.Keys <= Ids(events)
  {
    forall e | e in l
      ensures e in Ids(events)
    {
      var row := EventRow(e, l[e].hash);
      assert row in events && row.id == e;
    }
  }

  /** There are as many receipts as events exactly when every event has one. */
  lemma {:induction false} CountMeansAll(events: seq<EventRow>, l: Ledger)
    requires Sorted(events) && LedgerOk(events, l)
    ensures |l| == |events| <==> forall e :: e in events ==> e.id in l
    ensures |l| <= |events|
  {
    IdCount(events);
    LedgerWithin(events, l);
    Without(Ids(events), l.Keys);
    assert |l| == |l.Keys|;
    hide LedgerOk, Sorted;
    assert forall e :: e in events ==> e.id in Ids(events);
  }

  lemma AcceptedMeansAll(l: Ledger)
    ensures |AcceptedIds(l)| == |l| <==> forall e :: e in l ==> Accepted(l[e].verdict)
  {
    var other := l.Keys - AcceptedIds(l);
    assert l.Keys == AcceptedIds(l) + other;
    assert |l| == |AcceptedIds(l)| + |other|;
    if forall e :: e in l ==> Accepted(l[e].verdict) {
      assert forall x :: x !in other;
      Inhabited(other);
    }
  }

  lemma {:induction false} TakeAllKeeps(l: Ledger, events: seq<EventRow>, rs: seq<Receipt>)
    requires LedgerOk(events, l) && TakeAll(l, events, rs).Some?
    ensures LedgerOk(events, TakeAll(l, events, rs).value)
    ensures forall e :: e in l ==> e in TakeAll(l, events, rs).value && TakeAll(l, events, rs).value[e] == l[e]
    ensures forall r :: r in rs ==> r.event in TakeAll(l, events, rs).value
  {
    if rs != [] {
      TakeAllKeeps(l, events, rs[..|rs| - 1]);
      assert rs == rs[..|rs| - 1] + [rs[|rs| - 1]];
    }
  }

  lemma {:induction false} AckKeeps(s: State, rs: seq<Receipt>)
    requires Inv(s) && Acknowledge(s, rs).Some?
    ensures var s' := Acknowledge(s, rs).value;
      && Inv(s') && Evolves(s, s')
      && forall r :: r in rs ==> r.event in s'.ledger
  {
    var l' := TakeAll(s.ledger, EventsOf(s), rs).value;
    TakeAllKeeps(s.ledger, EventsOf(s), rs);
    assert s.job.release.Some? by {
      assert rs[0] in rs;
      assert rs[0].event in l';
    }
    var s' := Acknowledge(s, rs).value;
    assert s' == s.(ledger := l', job := s.job.(counters := Recount(s.job.counters, l'),
                                                 status := StatusAfter(l', s.job.counters.allowed)));
    hide Recount, TakeAll, Acknowledge, WellFormed;
    if Terminal(s.job.status) {
      SameWhenFull(s.events, s.ledger, l');
      CountMeansAll(s.events, s.ledger);
      AcceptedMeansAll(s.ledger);
    }
    LedgerInv(s, s');
    assert Extends(s.receiver, s'.receiver);
    assert Terminal(s.job.status) ==> s'.job.status == s.job.status;
  }

  /** Counters and status recomputed from the ledger fit it. */
  lemma LedgerInv(s: State, s': State)
    requires Inv(s) && s.job.release.Some? && LedgerOk(s.events, s'.ledger)
    requires s'.events == s.events && s'.job.release == s.job.release
    requires s'.job.counters == Recount(s.job.counters, s'.ledger)
    requires s'.job.status == StatusAfter(s'.ledger, s.job.counters.allowed)
    ensures Inv(s')
  {
    CountMeansAll(s.events, s'.ledger);
    AcceptedMeansAll(s'.ledger);
    RecountStable(s.job.counters, s'.ledger);
    hide Recount, LedgerOk, Sorted;
  }

  lemma RecountStable(c: Counters, l: Ledger)
    ensures Recount(Recount(c, l), l) == Recount(c, l) && Recount(c, l).allowed == c.allowed
  {
  }

  /** Once every event has a receipt there is nothing left to add. */
  lemma SameWhenFull(events: seq<EventRow>, l: Ledger, l': Ledger)
    requires LedgerOk(events, l) && LedgerOk(events, l')
    requires forall e :: e in events ==> e.id in l
    requires forall e :: e in l ==> e in l' && l'[e] == l[e]
    ensures l' == l
  {
    forall e | e in l'
      ensures e in l
    {
      var row := EventRow(e, l'[e].hash);
      assert row in events && row.id in l;
    }
    assert forall e :: e in l'.Keys <==> e in l.Keys;
    assert l'.Keys == l.Keys;
    assert forall e :: e in l' ==> l'[e] == l[e];
  }

  lemma ReleaseKeeps(s: State, outcome: Outcome, today: Day)
    requires Inv(s)
    ensures Inv(Release(s, outcome, today)) && Evolves(s, Release(s, outcome, today))
  {
    var s' := Release(s, outcome, today);
    if s' != s && outcome.NewRelease? {
      NothingLedgered(s);
      assert outcome.events[0] in outcome.events;
    }
  }

  /** No receipt exists before the release. */
  lemma NothingLedgered(s: State)
    requires Inv(s) && s.job.release.None?
    ensures s.ledger == map[]
  {
    assert forall e :: e !in s.ledger.Keys;
    Inhabited(s.ledger.Keys);
  }

  /** Whatever the order of pages, deliveries, lost and repeated acknowledgements, failures, retries and
      policy changes: there is at most one receipt for each released event, a receipt never changes or goes
      away, and the job is SUCCEEDED or PARTIAL exactly when every event has a receipt, and then stays so. */
  lemma {:induction false} StepKeeps(s: State, step: Step)
    requires Inv(s)
    ensures Inv(Apply(s, step)) && Evolves(s, Apply(s, step))
  {
    hide Recount, Acknowledge, Release, Answers, Page, Sorted, LedgerOk, Change;
    match step
    case SetPolicy(c, expected) =>
    case Calculate(result, today) => CalculateKeeps(s, result, today);
    case Authorize(outcome, today) => ReleaseKeeps(s, outcome, today);
    case Deliver(answers, receiver, today) =>
    case AckMail(i) =>
      if i < |s.mail| && Acknowledge(s, s.mail[i].receipts).Some? { AckKeeps(s, s.mail[i].receipts); }
    case AckOther(rs) =>
      if Acknowledge(s, rs).Some? { AckKeeps(s, rs); }
    case Failure => FailureKeeps(s);
    case Retry(today) => RetryKeeps(s, today);
  }

  lemma CalculateKeeps(s: State, result: Calculation, today: Day)
    requires Inv(s)
    ensures var s' := Apply(s, Calculate(result, today)); Inv(s') && Evolves(s, s')
  {
    hide Recount, Guard, LedgerOk, Sorted;
    if s.job.release.None? {
      NothingLedgered(s);
      EmptyCount(s.job.counters);
      EmptyCount(Counters(0, 0, 0, 0, 0, 0, 0));
    }
  }

  lemma FailureKeeps(s: State)
    requires Inv(s)
    ensures Inv(Apply(s, Failure)) && Evolves(s, Apply(s, Failure))
  {
    hide LedgerOk, Sorted, AcceptedIds, LinkedTasks, CreatedTasks;
  }

  lemma RetryKeeps(s: State, today: Day)
    requires Inv(s)
    ensures Inv(Apply(s, Retry(today))) && Evolves(s, Apply(s, Retry(today)))
  {
    hide LedgerOk, Sorted, AcceptedIds, LinkedTasks, CreatedTasks;
  }

  lemma EmptyCount(c: Counters)
    ensures Recount(c, map[]) == c.(sent := 0, accepted := 0, tasksCreated := 0, tasksLinked := 0, rejected := 0)
  {
    assert AcceptedIds(map[]) == {} && LinkedTasks(map[]) == {} && CreatedTasks(map[]) == {};
  }

  lemma {:induction false} Later(s: State, early: seq<Step>, more: seq<Step>)
    requires Inv(Play(s, early))
    ensures Inv(Play(s, early + more)) && Evolves(Play(s, early), Play(s, early + more))
    decreases |more|
  {
    hide *;
    if more == [] {
      assert early + more == early;
      SelfEvolves(Play(s, early));
    } else {
      var front, step := more[..|more| - 1], more[|more| - 1];
      Later(s, early, front);
      assert early + more == (early + front) + [step];
      PlayOne(s, early + front, step);
      StepKeeps(Play(s, early + front), step);
      EvolvesChain(Play(s, early), Play(s, early + front), Play(s, early + more));
    }
  }

  lemma PlayOne(s: State, front: seq<Step>, step: Step)
    ensures Play(s, front + [step]) == Apply(Play(s, front), step)
  {
    hide Apply;
    assert (front + [step])[..|front|] == front;
  }

  lemma {:induction false} EveryHistory(schedule: Schedule, kind: Kind, day: Day, early: seq<Step>, more: seq<Step>)
    ensures Inv(Play(Initial(schedule, kind, day), early))
    ensures Inv(Play(Initial(schedule, kind, day), early + more))
    ensures Evolves(Play(Initial(schedule, kind, day), early), Play(Initial(schedule, kind, day), early + more))
  {
    var s := Initial(schedule, kind, day);
    assert Inv(s) by { EmptyCount(s.job.counters); }
    assert Play(s, []) == s;
    hide *;
    Later(s, [], early);
    assert [] + early == early;
    Later(s, early, more);
  }

  lemma SelfEvolves(s: State)
    ensures Evolves(s, s)
  {
  }

  lemma EvolvesChain(a: State, b: State, c: State)
    requires Evolves(a, b) && Evolves(b, c)
    ensures Evolves(a, c)
  {
  }

  /** What an operator reads on the job always describes the ledger as it is. */
  lemma CountersDescribeLedger(schedule: Schedule, kind: Kind, day: Day, steps: seq<Step>)
    ensures var s := Play(Initial(schedule, kind, day), steps);
      && s.job.counters.sent == |s.ledger| == s.job.counters.accepted + s.job.counters.rejected
      && s.job.counters.accepted == |set e | e in s.ledger && Accepted(s.ledger[e].verdict)|
      && s.job.counters.tasksCreated <= s.job.counters.tasksLinked <= s.job.counters.sent
      && (s.job.release.Some? ==> s.job.counters.allowed == |s.events|)
  {
    EveryHistory(schedule, kind, day, steps, []);
    assert steps + [] == steps;
    hide Play;
    var s := Play(Initial(schedule, kind, day), steps);
    AcceptedSubset(s.ledger);
    TasksBounded(s.ledger);
    hide LedgerOk, Sorted;
  }

  function TasksAt(ids: set<int>, l: Ledger): set<Text>
  {
    set e | e in ids && e in l && l[e].task.Some? :: l[e].task.value
  }

  lemma {:induction false} ImageSize(ids: set<int>, l: Ledger)
    ensures |TasksAt(ids, l)| <= |ids|
    decreases ids
  {
    if ids == {} {
      assert forall x :: x !in TasksAt(ids, l);
      Inhabited(TasksAt(ids, l));
    } else {
      Inhabited(ids);
      var e :| e in ids;
      ImageSize(ids - {e}, l);
      var own := if e in l && l[e].task.Some? then {l[e].task.value} else {};
      assert TasksAt(ids, l) == TasksAt(ids - {e}, l) + own;
    }
  }

  lemma TasksBounded(l: Ledger)
    ensures |CreatedTasks(l)| <= |LinkedTasks(l)| <= |l|
  {
    ImageSize(l.Keys, l);
    assert LinkedTasks(l) == TasksAt(l.Keys, l);
    assert |l.Keys| == |l|;
    Without(LinkedTasks(l), CreatedTasks(l));
  }

  // ---------------------------------------------------------------- at least once behaves as exactly once

  predicate Within(l: Ledger, l': Ledger)
  {
    forall e :: e in l ==> e in l' && l'[e] == l[e]
  }

  lemma {:induction false} TakenStays(l: Ledger, events: seq<EventRow>, rs: seq<Receipt>, later: Ledger)
    requires TakeAll(l, events, rs).Some? && Within(TakeAll(l, events, rs).value, later)
    ensures Within(l, later)
    ensures TakeAll(later, events, rs) == Some(later)
  {
    if rs != [] {
      var front, r := rs[..|rs| - 1], rs[|rs| - 1];
      var before := TakeAll(l, events, front).value;
      var after := TakeIn(before, events, r).value;
      assert r.event in after && !Conflicts(after[r.event], r);
      hide Conflicts, WellFormed;
      assert Within(before, after);
      assert Within(before, later);
      TakenStays(l, events, front, later);
    }
  }

  /** An acknowledgement that was once taken in can be repeated at any later time: it is accepted and adds
      nothing; the ledger, the counters, the release and the world stay as they are. */
  lemma {:induction false} RepeatAddsNothing(s: State, rs: seq<Receipt>, later: State)
    requires Inv(s) && Inv(later) && Acknowledge(s, rs).Some? && Evolves(Acknowledge(s, rs).value, later)
    ensures Acknowledge(later, rs).Some?
    ensures Acknowledge(later, rs).value == later.(job := later.job.(status :=
                if Terminal(later.job.status) then later.job.status else Delivering))
  {
    AckKeeps(s, rs);
    AckKeepsRelease(s, rs);
    TakenStays(s.ledger, s.events, rs, later.ledger);
    CountMeansAll(later.events, later.ledger);
    AcceptedMeansAll(later.ledger);
    RecountStable(later.job.counters, later.ledger);
    hide TakeAll, Recount;
    assert Acknowledge(later, rs).value.job.counters == later.job.counters;
  }

  lemma AckKeepsRelease(s: State, rs: seq<Receipt>)
    requires Inv(s) && Acknowledge(s, rs).Some?
    ensures s.job.release.Some? && Acknowledge(s, rs).value.job.release == s.job.release
    ensures Acknowledge(s, rs).value.events == s.events
  {
    hide Recount, TakeAll;
    TakeAllKeeps(s.ledger, EventsOf(s), rs);
    assert rs[0] in rs;
    assert rs[0].event in TakeAll(s.ledger, EventsOf(s), rs).value;
  }

  predicate Honest(steps: seq<Step>)
  {
    forall i :: 0 <= i < |steps| ==> !steps[i].AckOther?
  }

  /** Every task in the ledger, and in every answer still under way, is the receiver's own. */
  predicate Agrees(receiver: map<int, Task>, l: Ledger, mail: seq<Mail>)
  {
    && (forall e :: e in l && l[e].task.Some? ==> Holds(receiver, e, l[e].task.value, l[e].created))
    && (forall i :: 0 <= i < |mail| ==> Named(receiver, mail[i].receipts))
  }

  lemma {:induction false} TakeAllAgrees(l: Ledger, events: seq<EventRow>, rs: seq<Receipt>, receiver: map<int, Task>)
    requires TakeAll(l, events, rs).Some? && Agrees(receiver, l, []) && Named(receiver, rs)
    ensures Agrees(receiver, TakeAll(l, events, rs).value, [])
  {
    hide Conflicts, WellFormed, Holds;
    if rs != [] {
      var front, r := rs[..|rs| - 1], rs[|rs| - 1];
      TakeAllAgrees(l, events, front, receiver);
      var before := TakeAll(l, events, front).value;
      assert r.event in before ==> TakeIn(before, events, r) == Some(before);
    }
  }

  /** When every receipt comes from the receiver, the ledger names the task the receiver holds for the event,
      with its creation flag; so two accepted answers for one event can never conflict. */
  lemma {:induction false} TasksAreTheReceivers(schedule: Schedule, kind: Kind, day: Day, steps: seq<Step>)
    requires Honest(steps)
    ensures var s := Play(Initial(schedule, kind, day), steps); Agrees(s.receiver, s.ledger, s.mail)
  {
    var s := Initial(schedule, kind, day);
    if steps != [] {
      var front, step := steps[..|steps| - 1], steps[|steps| - 1];
      TasksAreTheReceivers(schedule, kind, day, front);
      AgreesStep(Play(s, front), step);
    }
  }

  lemma ReleaseFrame(s: State)
    ensures forall outcome, today :: var s' := Release(s, outcome, today);
      s'.receiver == s.receiver && s'.ledger == s.ledger && s'.mail == s.mail
  {
  }

  lemma AgreesStep(s: State, step: Step)
    requires Agrees(s.receiver, s.ledger, s.mail) && !step.AckOther?
    ensures var s' := Apply(s, step); Agrees(s'.receiver, s'.ledger, s'.mail)
  {
    ReleaseFrame(s);
    hide Recount, Release, TakeAll, Page, Guard, StatusAfter;
    var s' := Apply(s, step);
    if step.Deliver? && s' != s {
      forall i | 0 <= i < |s.mail|
        ensures Named(step.receiver, s.mail[i].receipts)
      {
      }
    } else if step.AckMail? && s' != s {
      TakeAllAgrees(s.ledger, EventsOf(s), s.mail[step.index].receipts, s.receiver);
    } else if step.Authorize? {
      assert s'.receiver == s.receiver && s'.ledger == s.ledger && s'.mail == s.mail;
    }
  }

  /** Two answers that accept the same event never conflict, however they are delayed or reordered. */
  lemma AcceptedNeverConflict(receiver: map<int, Task>, stored: Entry, r: Receipt)
    requires stored.hash == r.hash && Accepted(stored.verdict) && Accepted(r.verdict)
    requires stored.task.Some? && Holds(receiver, r.event, stored.task.value, stored.created)
    requires r.task.Some? && Holds(receiver, r.event, r.task.value, CreatedFlag(r))
    ensures !Conflicts(stored, r)
  {
  }

  /** What SUCCEEDED means to a manager: every released event has a task at the receiver, and the number of
      created tasks is the number of different tasks that the receiver created for this release. */
  lemma {:induction false} SucceededMeans(schedule: Schedule, kind: Kind, day: Day, steps: seq<Step>)
    requires Honest(steps)
    requires Play(Initial(schedule, kind, day), steps).job.status == Succeeded
    ensures var s := Play(Initial(schedule, kind, day), steps);
      && (forall e :: e in s.events ==> e.id in s.receiver)
      && s.job.counters.tasksCreated ==
           |set e | e in Ids(s.events) && e in s.receiver && s.receiver[e].created :: s.receiver[e].id|
      && s.job.counters.tasksLinked == |set e | e in Ids(s.events) && e in s.receiver :: s.receiver[e].id|
  {
    var s := Play(Initial(schedule, kind, day), steps);
    EveryHistory(schedule, kind, day, steps, []);
    TasksAreTheReceivers(schedule, kind, day, steps);
    hide Play;
    CountMeansAll(s.events, s.ledger);
    AcceptedMeansAll(s.ledger);
    LedgerWithin(s.events, s.ledger);
    assert AllAcknowledged(s) && AllAccepted(s) && s.job.counters == Recount(s.job.counters, s.ledger)
        && LedgerOk(s.events, s.ledger);
    assert s.ledger.Keys == Ids(s.events);
    CountersAre(s.job.counters, s.ledger);
    hide Recount, Inv, Ids;
    assert forall e :: e in s.ledger ==> s.ledger[e].task.Some? &&
                                         Holds(s.receiver, e, s.ledger[e].task.value, s.ledger[e].created);
    LinkedAre(s.ledger, s.receiver);
  }

  lemma CountersAre(c: Counters, l: Ledger)
    ensures Recount(c, l).tasksCreated == |CreatedTasks(l)| && Recount(c, l).tasksLinked == |LinkedTasks(l)|
  {
  }

  lemma LinkedAre(l: Ledger, receiver: map<int, Task>)
    requires forall e :: e in l ==> l[e].task.Some? && Holds(receiver, e, l[e].task.value, l[e].created)
    ensures LinkedTasks(l) == set e | e in l.Keys && e in receiver :: receiver[e].id
    ensures CreatedTasks(l) == set e | e in l.Keys && e in receiver && receiver[e].created :: receiver[e].id
  {
  }

  // ---------------------------------------------------------------- the host loop

  /** One turn of the host loop before its deadline: the receiver stays silent or answers, first the preflight, of
      which the host only looks whether it is `complete`, then the delivery. */
  datatype Reply = Silent | Answer(complete: bool, receipts: seq<Receipt>, receiver: map<int, Task>)

  datatype HostResult = NoPendingEvents | Finished(status: Status) | Resumable(pages: nat) | Raised

  const MAX_PAGES := 4

  /** Page, preflight, deliver, acknowledge: at most four times, stopping at an error and at a final status. Whatever
      the delivery answers is acknowledged, also fewer receipts than the page has events. */
  function Host(s: State, replies: seq<Reply>, today: Day, pages: nat): (State, HostResult)
    decreases |replies|
  {
    if pages >= MAX_PAGES || replies == [] then (s, Resumable(pages)) else
      var page := Page(s.job, s.schedule, s.events, s.ledger, today);
      if page.None? then (s, Raised)
      else if page.value == [] || s.job.release.None? then (s, NoPendingEvents)
      else if replies[0].Silent? || !replies[0].complete then (s, Raised)
      else
        var sent := Apply(s, Deliver(replies[0].receipts, replies[0].receiver, today));
        var taken := Acknowledge(sent, replies[0].receipts);
        if taken.None? then (sent, Raised)
        else if taken.value.job.status == Succeeded || taken.value.job.status == Partial then
          (taken.value, Finished(taken.value.job.status))
        else Host(taken.value, replies[1..], today, pages + 1)
  }

  predicate CleanAnswers(rs: seq<Receipt>)
  {
    forall i :: 0 <= i < |rs| ==> rs[i].clean && rs[i].verdict != Unknown
  }

  function AnsweredIds(rs: seq<Receipt>): set<int>
  {
    if rs == [] then {} else AnsweredIds(rs[..|rs| - 1]) + {rs[|rs| - 1].event}
  }

  lemma TakeNew(l: Ledger, events: seq<EventRow>, front: seq<Receipt>, r: Receipt)
    requires TakeAll(l, events, front).Some? && WellFormed(r, events)
    requires r.event !in TakeAll(l, events, front).value
    ensures TakeAll(l, events, front + [r]) == Some(TakeAll(l, events, front).value[r.event := EntryOf(r)])
    ensures AnsweredIds(front + [r]) == AnsweredIds(front) + {r.event}
  {
    hide WellFormed, Conflicts, EntryOf;
    assert (front + [r])[..|front|] == front;
  }

  lemma {:induction false} NotAnswered(rs: seq<Receipt>, x: int)
    requires forall i :: 0 <= i < |rs| ==> rs[i].event != x
    ensures x !in AnsweredIds(rs)
  {
    if rs != [] {
      NotAnswered(rs[..|rs| - 1], x);
    }
  }

  lemma {:induction false} NewOnesAreTaken(l: Ledger, events: seq<EventRow>, rs: seq<Receipt>)
    requires forall i :: 0 <= i < |rs| ==> WellFormed(rs[i], events) && rs[i].event !in l
    requires forall i, j :: 0 <= i < j < |rs| ==> rs[i].event != rs[j].event
    ensures TakeAll(l, events, rs).Some?
    ensures TakeAll(l, events, rs).value.Keys == l.Keys + AnsweredIds(rs)
  {
    if rs == [] {
      assert TakeAll(l, events, rs) == Some(l) && AnsweredIds(rs) == {};
    } else {
      var n := |rs| - 1;
      var front := rs[..n];
      hide *;
      NewOnesAreTaken(l, events, front);
      NotAnswered(front, rs[n].event);
      TakeNew(l, events, front, rs[n]);
      assert rs == front + [rs[n]];
    }
  }

  /** The answers of a page name its events one by one. */
  lemma {:induction false} AnswersCover(page: seq<EventRow>, rs: seq<Receipt>)
    requires |rs| == |page| && forall i :: 0 <= i < |rs| ==> rs[i].event == page[i].id
    ensures AnsweredIds(rs) == Ids(page)
  {
    if rs != [] {
      var n := |rs| - 1;
      AnswersCover(page[..n], rs[..n]);
      assert page == page[..n] + [page[n]];
    }
  }

  /** Answers to a page that was just read are always taken in: each is new, and none can conflict. */
  lemma {:induction false} FreshIsTaken(l: Ledger, events: seq<EventRow>, page: seq<EventRow>, rs: seq<Receipt>,
                                        receiver: map<int, Task>)
    requires Sorted(page) && Answers(page, rs, receiver) && CleanAnswers(rs)
    requires forall e :: e in page ==> e in events && e.id !in l
    ensures forall i, j :: 0 <= i < j < |rs| ==> rs[i].event != rs[j].event
    ensures TakeAll(l, events, rs).Some?
    ensures TakeAll(l, events, rs).value.Keys == l.Keys + Ids(page)
  {
    hide TakeAll;
    forall i | 0 <= i < |rs|
      ensures WellFormed(rs[i], events) && rs[i].event !in l
    {
      assert page[i] in page;
      assert EventRow(rs[i].event, rs[i].hash) == page[i];
    }
    NewOnesAreTaken(l, events, rs);
    AnswersCover(page, rs);
  }

  lemma {:induction false} LeftIds(events: seq<EventRow>, l: Ledger)
    requires Sorted(events) && LedgerOk(events, l)
    ensures Ids(Unacknowledged(events, l)) == Ids(events) - l.Keys && l.Keys <= Ids(events)
  {
    UnacknowledgedAre(events, l);
    LedgerWithin(events, l);
    hide Unacknowledged, LedgerOk, Sorted;
  }

  lemma {:induction false} LeftCount(events: seq<EventRow>, l: Ledger)
    requires Sorted(events) && LedgerOk(events, l)
    ensures |Unacknowledged(events, l)| == |events| - |l|
  {
    UnacknowledgedAre(events, l);
    LeftIds(events, l);
    IdCount(Unacknowledged(events, l));
    IdCount(events);
    hide *;
    Without(Ids(events), l.Keys);
    assert |l| == |l.Keys|;
  }

  predicate Sending(s: State, today: Day)
  {
    && Guard(s.job, s.schedule, today) && s.job.kind == Daily
    && (s.job.status == Released || s.job.status == Delivering) && s.job.release.Some?
  }

  /** The receiver answers this page properly, whatever its decisions are. */
  predicate Answered(s: State, reply: Reply, today: Day)
  {
    && reply.Answer? && reply.complete && Extends(s.receiver, reply.receiver)
    && Page(s.job, s.schedule, s.events, s.ledger, today).Some?
    && Answers(Page(s.job, s.schedule, s.events, s.ledger, today).value, reply.receipts, reply.receiver)
    && CleanAnswers(reply.receipts)
  }

  lemma PageSize(s: State, today: Day)
    requires Inv(s) && Sending(s, today)
    ensures var page := Page(s.job, s.schedule, s.events, s.ledger, today).value;
      && |page| == Min(PAGE_SIZE, |s.events| - |s.ledger|) && |page| > 0 && Sorted(page)
      && (forall e :: e in page ==> e in s.events && e.id !in s.ledger)
  {
    LeftCount(s.events, s.ledger);
    CountMeansAll(s.events, s.ledger);
    hide Unacknowledged, LedgerOk, Recount;
    PageIsLowest(s.job, s.schedule, s.events, s.ledger, today);
  }

  function Turn(s: State, reply: Reply, today: Day): Option<State>
    requires reply.Answer?
  {
    Acknowledge(Apply(s, Deliver(reply.receipts, reply.receiver, today)), reply.receipts)
  }

  lemma Delivered(s: State, reply: Reply, today: Day)
    requires Sending(s, today) && Answered(s, reply, today)
    requires Page(s.job, s.schedule, s.events, s.ledger, today).value != []
    ensures Apply(s, Deliver(reply.receipts, reply.receiver, today)) ==
            s.(receiver := reply.receiver, mail := s.mail + [Mail(s.job.release.value, reply.receipts)])
  {
    hide Page, Named, Extends, Guard, CleanAnswers;
  }

  lemma AckResult(s: State, rs: seq<Receipt>)
    requires ProperBatch(rs) && TakeAll(s.ledger, EventsOf(s), rs).Some?
    ensures Acknowledge(s, rs).Some?
    ensures var s' := Acknowledge(s, rs).value;
      && s'.ledger == TakeAll(s.ledger, EventsOf(s), rs).value && s'.events == s.events
      && s'.schedule == s.schedule && s'.job.kind == s.job.kind && s'.job.day == s.job.day
      && s'.job.policyRevision == s.job.policyRevision && s'.job.release == s.job.release
      && s'.job.status in {Delivering, Succeeded, Partial}
  {
    hide TakeAll, Recount;
  }

  lemma TurnTaken(s: State, reply: Reply, today: Day)
    requires Inv(s) && Sending(s, today) && Answered(s, reply, today)
    ensures Turn(s, reply, today).Some?
    ensures var page := Page(s.job, s.schedule, s.events, s.ledger, today).value;
      var next := Turn(s, reply, today).value;
      && Inv(next) && next.events == s.events
      && next.ledger.Keys == s.ledger.Keys + Ids(page)
      && (next.job.status == Delivering ==> Sending(next, today))
      && next.job.status in {Delivering, Succeeded, Partial} && next.job.release.Some?
  {
    PageSize(s, today);
    var page := Page(s.job, s.schedule, s.events, s.ledger, today).value;
    var step := Deliver(reply.receipts, reply.receiver, today);
    var sent := Apply(s, step);
    Delivered(s, reply, today);
    StepKeeps(s, step);
    FreshIsTaken(s.ledger, s.events, page, reply.receipts, reply.receiver);
    assert ProperBatch(reply.receipts) && EventsOf(sent) == s.events && sent.ledger == s.ledger
        && sent.schedule == s.schedule && sent.job == s.job by {
      hide TakeAll, Page, Inv, Apply, Sorted;
    }
    AckResult(sent, reply.receipts);
    AckKeeps(sent, reply.receipts);
    hide TakeAll, Page, Inv, Apply, Sorted, Acknowledge, Recount, Answers, CleanAnswers, LedgerOk, Ids, Answered,
      Evolves, ProperBatch;
  }

  /** One answered page: as many new receipts as fit, and a final status exactly at the last one. */
  lemma OnePage(s: State, reply: Reply, today: Day)
    requires Inv(s) && Sending(s, today) && Answered(s, reply, today)
    ensures Turn(s, reply, today).Some?
    ensures var next := Turn(s, reply, today).value;
      && Inv(next) && next.events == s.events
      && |next.ledger| == Min(|s.events|, |s.ledger| + PAGE_SIZE)
      && (if |next.ledger| == |s.events| then next.job.status in {Succeeded, Partial} else Sending(next, today))
  {
    TurnTaken(s, reply, today);
    PageSize(s, today);
    var page := Page(s.job, s.schedule, s.events, s.ledger, today).value;
    var next := Turn(s, reply, today).value;
    IdCount(page);
    CountMeansAll(next.events, next.ledger);
    FullMeansFinal(next);
    assert s.ledger.Keys !! Ids(page);
    hide TakeAll, Page, Inv, Apply, Sorted, Acknowledge, Recount, Answers, CleanAnswers, LedgerOk, Ids, Answered, Turn,
      Guard, Sending, Play;
    assert |next.ledger| == |next.ledger.Keys| == |s.ledger.Keys| + |Ids(page)|;
  }

  lemma FullMeansFinal(s: State)
    requires Inv(s) && s.job.release.Some?
    ensures |s.ledger| == |s.events| <==> s.job.status in {Succeeded, Partial}
  {
    CountMeansAll(s.events, s.ledger);
    hide Recount, LedgerOk, Sorted;
  }

  lemma FinalStatus(s: State)
    requires Inv(s) && s.job.status in {Succeeded, Partial}
    ensures s.job.status == (if AllAccepted(s) then Succeeded else Partial)
  {
    hide Recount, LedgerOk, Sorted;
  }

  lemma HostTurn(s: State, replies: seq<Reply>, today: Day, pages: nat)
    requires pages < MAX_PAGES && replies != [] && Sending(s, today) && Answered(s, replies[0], today)
    requires Page(s.job, s.schedule, s.events, s.ledger, today).value != [] && Turn(s, replies[0], today).Some?
    ensures var next := Turn(s, replies[0], today).value;
      Host(s, replies, today, pages) ==
        if next.job.status == Succeeded || next.job.status == Partial then (next, Finished(next.job.status))
        else Host(next, replies[1..], today, pages + 1)
  {
    hide Page, Answers, Idempotent, Extends, Guard, CleanAnswers, Apply, Acknowledge;
  }

  predicate AllAnswered(s: State, replies: seq<Reply>, today: Day)
    decreases |replies|
  {
    if replies == [] || !Sending(s, today) then true else
      && Answered(s, replies[0], today)
      && (Turn(s, replies[0], today).Some? ==> AllAnswered(Turn(s, replies[0], today).value, replies[1..], today))
  }

  lemma AnsweredStep(s: State, replies: seq<Reply>, today: Day)
    requires replies != [] && Sending(s, today) && AllAnswered(s, replies, today)
    ensures replies[0].Answer? && Answered(s, replies[0], today)
    ensures Turn(s, replies[0], today).Some? ==> AllAnswered(Turn(s, replies[0], today).value, replies[1..], today)
  {
    hide Turn, Sending, Page, Answers, CleanAnswers;
  }

  /** `turns` answered pages later: so many more receipts as fit, and a final status exactly when full. */
  predicate Progress(s: State, s': State, result: HostResult, pages: nat, turns: nat)
  {
    && Inv(s') && s'.events == s.events
    && |s'.ledger| == Min(|s.events|, |s.ledger| + PAGE_SIZE * turns)
    && (if |s'.ledger| == |s.events|
        then result == Finished(if AllAccepted(s') then Succeeded else Partial) && s'.job.status == result.status
        else result == Resumable(pages + turns))
  }

  lemma ProgressChain(s: State, next: State, s': State, result: HostResult, pages: nat, turns: nat)
    requires turns >= 1 && next.events == s.events && |next.ledger| < |s.events|
    requires |next.ledger| == Min(|s.events|, |s.ledger| + PAGE_SIZE)
    requires Progress(next, s', result, pages + 1, turns - 1)
    ensures Progress(s, s', result, pages, turns)
  {
    hide Inv, AllAccepted;
  }

  lemma ProgressLast(s: State, next: State, pages: nat, turns: nat)
    requires turns >= 1 && Inv(next) && next.events == s.events && |next.ledger| == |s.events|
    requires |next.ledger| == Min(|s.events|, |s.ledger| + PAGE_SIZE) && next.job.status in {Succeeded, Partial}
    ensures Progress(s, next, Finished(next.job.status), pages, turns)
  {
    FinalStatus(next);
    hide Inv, AllAccepted;
  }

  /** When the receiver keeps answering, every entry of the host loop acknowledges a full page, nothing is
      acknowledged twice or skipped, and the loop reports a final status exactly when no event is left. */
  lemma {:induction false} HostProgress(s: State, replies: seq<Reply>, today: Day, pages: nat)
    requires Inv(s) && Sending(s, today) && pages <= MAX_PAGES && AllAnswered(s, replies, today)
    ensures var (s', result) := Host(s, replies, today, pages);
      Progress(s, s', result, pages, Min(|replies|, MAX_PAGES - pages))
    decreases |replies|
  {
    hide TakeAll, Page, Inv, Apply, Sorted, Acknowledge, Recount, Answers, CleanAnswers, LedgerOk, Ids, Answered, Turn,
      Guard, Sending, Play, Host, Progress, AllAnswered, Extends, AllAccepted;
    PageSize(s, today);
    var turns := Min(|replies|, MAX_PAGES - pages);
    if pages < MAX_PAGES && replies != [] {
      AnsweredStep(s, replies, today);
      OnePage(s, replies[0], today);
      HostTurn(s, replies, today, pages);
      var next := Turn(s, replies[0], today).value;
      if |next.ledger| == |s.events| {
        ProgressLast(s, next, pages, turns);
      } else {
        StillSending(next, today);
        HostProgress(next, replies[1..], today, pages + 1);
        var (s', result) := Host(next, replies[1..], today, pages + 1);
        ProgressChain(s, next, s', result, pages, turns);
      }
    } else {
      HostStops(s, replies, today, pages);
    }
  }

  lemma HostStops(s: State, replies: seq<Reply>, today: Day, pages: nat)
    requires Inv(s) && (pages >= MAX_PAGES || replies == []) && |s.ledger| < |s.events|
    ensures Host(s, replies, today, pages) == (s, Resumable(pages))
    ensures Progress(s, s, Resumable(pages), pages, 0)
  {
    hide Inv, AllAccepted;
  }

  lemma StillSending(s: State, today: Day)
    requires Sending(s, today)
    ensures s.job.status != Succeeded && s.job.status != Partial
  {
    hide Guard;
  }
}
