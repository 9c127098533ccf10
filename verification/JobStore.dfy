/** The commands of the daily churn job as they update its rows in place, and the host loop that drives them. */
module JobStore {
  import opened Prelude
  import opened DeliveryLedger

  /** One host invocation: authorize if the job still needs it, then deliver; every error is reported back
      as a failed attempt. `outcome` is what the release decision would be, None when no evidence came. */
  function RunHost(s: State, outcome: Option<Outcome>, replies: seq<Reply>, today: Day): (State, HostResult)
  {
    if s.job.status == AwaitingEvidence || s.job.status == Blocked then
      var released := if outcome.None? then s else Release(s, outcome.value, today);
      if released.job.status != Released then (Apply(released, Failure), Raised)
      else Report(Host(released, replies, today, 0))
    else if s.job.status == Released || s.job.status == Delivering then Report(Host(s, replies, today, 0))
    else (s, NoPendingEvents)
  }

  function Report(r: (State, HostResult)): (State, HostResult)
  {
    if r.1 == Raised then (Apply(r.0, Failure), Raised) else r
  }

  lemma {:induction false} HostKeeps(s: State, replies: seq<Reply>, today: Day, pages: nat)
    requires Inv(s)
    ensures var (s', _) := Host(s, replies, today, pages); Inv(s') && Evolves(s, s')
    decreases |replies|
  {
    SelfEvolves(s);
    hide Inv, Acknowledge, Idempotent, Page;
    var (s', result) := Host(s, replies, today, pages);
    if s' != s {
      var step := Deliver(replies[0].receipts, replies[0].receiver, today);
      var sent := Apply(s, step);
      StepKeeps(s, step);
      if Acknowledge(sent, replies[0].receipts).Some? {
        AckKeeps(sent, replies[0].receipts);
        var taken := Acknowledge(sent, replies[0].receipts).value;
        HostKeeps(taken, replies[1..], today, pages + 1);
        EvolvesChain(s, sent, taken);
        EvolvesChain(s, taken, s');
      }
    }
  }

  /** A host invocation, whatever it meets, keeps every invariant and undoes nothing. */
  lemma RunHostKeeps(s: State, outcome: Option<Outcome>, replies: seq<Reply>, today: Day)
    requires Inv(s)
    ensures var (s', _) := RunHost(s, outcome, replies, today); Inv(s') && Evolves(s, s')
  {
    hide Inv, Host, Apply, Release;
    var (s', _) := RunHost(s, outcome, replies, today);
    assert Evolves(s, s);
    var start := if (s.job.status == AwaitingEvidence || s.job.status == Blocked) && outcome.Some?
                 then Release(s, outcome.value, today) else s;
    if (s.job.status == AwaitingEvidence || s.job.status == Blocked) && outcome.Some? {
      ReleaseKeeps(s, outcome.value, today);
    }
    StepKeeps(start, Failure);
    HostKeeps(start, replies, today, 0);
    var (reached, _) := Host(start, replies, today, 0);
    StepKeeps(reached, Failure);
    EvolvesChain(s, start, Apply(start, Failure));
    EvolvesChain(s, start, reached);
    EvolvesChain(start, reached, Apply(reached, Failure));
    EvolvesChain(s, start, Apply(reached, Failure));
  }

  /** The tasks named in the receipts outside `rest`, all or only those created for the release. */
  function TasksBut(l: Ledger, rest: set<int>, onlyCreated: bool): set<Text>
  {
    set e | e in l && e !in rest && (onlyCreated ==> l[e].created) && l[e].task.Some? :: l[e].task.value
  }

  function AcceptedBut(l: Ledger, rest: set<int>): nat
  {
    |AcceptedIds(l) - rest|
  }

  function TaskOf(entry: Entry, onlyCreated: bool): set<Text>
  {
    if (onlyCreated ==> entry.created) && entry.task.Some? then {entry.task.value} else {}
  }

  lemma AcceptedStep(l: Ledger, rest: set<int>, e: int)
    requires e in l && e in rest
    ensures AcceptedBut(l, rest - {e}) == AcceptedBut(l, rest) + if Accepted(l[e].verdict) then 1 else 0
  {
    if Accepted(l[e].verdict) {
      assert AcceptedIds(l) - (rest - {e}) == (AcceptedIds(l) - rest) + {e};
    } else {
      assert AcceptedIds(l) - (rest - {e}) == AcceptedIds(l) - rest;
    }
  }

  lemma TasksStep(l: Ledger, rest: set<int>, e: int, onlyCreated: bool)
    requires e in l && e in rest
    ensures TasksBut(l, rest - {e}, onlyCreated) == TasksBut(l, rest, onlyCreated) + TaskOf(l[e], onlyCreated)
  {
  }

  lemma TallyEnds(l: Ledger)
    ensures AcceptedBut(l, l.Keys) == 0 && TasksBut(l, l.Keys, true) == {} && TasksBut(l, l.Keys, false) == {}
    ensures AcceptedBut(l, {}) == |AcceptedIds(l)|
    ensures TasksBut(l, {}, true) == CreatedTasks(l) && TasksBut(l, {}, false) == LinkedTasks(l)
  {
    assert AcceptedIds(l) - l.Keys == {} && AcceptedIds(l) - {} == AcceptedIds(l);
  }

  lemma PageStep(events: seq<EventRow>, l: Ledger, rows: seq<EventRow>, i: nat)
    requires i < |events| && Unacknowledged(events, l) == rows + Unacknowledged(events[i..], l)
    ensures Unacknowledged(events, l) ==
            (if events[i].id in l then rows else rows + [events[i]]) + Unacknowledged(events[i + 1..], l)
  {
    assert events[i..][1..] == events[i + 1..];
    var rest := Unacknowledged(events[i + 1..], l);
    assert Unacknowledged(events[i..], l) == if events[i].id in l then rest else [events[i]] + rest;
    hide *;
    assert rows + ([events[i]] + rest) == (rows + [events[i]]) + rest;
  }

  lemma PageComplete(events: seq<EventRow>, l: Ledger, rows: seq<EventRow>, i: nat)
    requires i <= |events| && Unacknowledged(events, l) == rows + Unacknowledged(events[i..], l)
    requires |rows| <= PAGE_SIZE && (i == |events| || |rows| == PAGE_SIZE)
    ensures var left := Unacknowledged(events, l); rows == left[..Min(PAGE_SIZE, |left|)]
  {
    if i == |events| {
      assert Unacknowledged(events[i..], l) == [];
    }
    hide Unacknowledged;
  }

  class Store {
    var schedule: Schedule
    var job: Job
    var events: seq<EventRow>
    var ledger: Ledger
    var receiver: map<int, Task>
    var mail: seq<Mail>

    function Now(): State
      reads this
    {
      State(schedule, job, events, ledger, receiver, mail)
    }

    constructor (s: Schedule, kind: Kind, day: Day)
      ensures Now() == Initial(s, kind, day)
    {
      schedule := s;
      job := Job(kind, day, s.revision, Queued, None, None, Counters(0, 0, 0, 0, 0, 0, 0));
      events, ledger, receiver, mail := [], map[], map[], [];
    }

    method ChangePolicy(c: Control, expected: nat) returns (ok: bool)
      modifies this`schedule
      ensures Now() == Apply(old(Now()), SetPolicy(c, expected))
      ensures ok <==> expected == old(schedule.revision) && (c == EnableIt ==> old(schedule.approved))
    {
      ok := expected == schedule.revision;
      if ok {
        match c {
          case Draft => schedule := schedule.(approved := false, enabled := false);
          case Approve => schedule := schedule.(approved := true, enabled := false);
          case EnableIt =>
            ok := schedule.approved;
            if ok { schedule := schedule.(enabled := true); }
          case DisableIt => schedule := schedule.(enabled := false);
        }
        if c == Draft || c == Approve {
          schedule := schedule.(revision := schedule.revision + 1);
        }
      }
    }

    /** The counters of the ledger, one record at a time. */
    static method Tally(l: Ledger) returns (accepted: nat, created: set<Text>, linked: set<Text>)
      ensures accepted == |AcceptedIds(l)| && created == CreatedTasks(l) && linked == LinkedTasks(l)
    {
      accepted, created, linked := 0, {}, {};
      var rest := l.Keys;
      TallyEnds(l);
      hide *;
      while rest != {}
        invariant rest <= l.Keys && accepted == AcceptedBut(l, rest)
        invariant created == TasksBut(l, rest, true) && linked == TasksBut(l, rest, false)
      {
        Inhabited(rest);
        var e :| e in rest;
        AcceptedStep(l, rest, e);
        TasksStep(l, rest, e, true);
        TasksStep(l, rest, e, false);
        accepted := accepted + if Accepted(l[e].verdict) then 1 else 0;
        created := created + TaskOf(l[e], true);
        linked := linked + TaskOf(l[e], false);
        rest := rest - {e};
      }
    }

    /** Each receipt in turn; the first one that is malformed or conflicts rejects them all. */
    method TakeReceipts(rs: seq<Receipt>) returns (taken: Option<Ledger>)
      ensures taken == TakeAll(ledger, EventsOf(Now()), rs)
    {
      var known := if job.release.None? then [] else events;
      var current := ledger;
      assert rs[..0] == [];
      for i := 0 to |rs|
        invariant TakeAll(ledger, known, rs[..i]) == Some(current)
      {
        var r := rs[i];
        assert rs[..i + 1][..i] == rs[..i];
        if EventRow(r.event, r.hash) !in known || r.verdict == Unknown || !r.clean
           || (Accepted(r.verdict) && r.task.None?) {
          Rejected(ledger, known, rs, i + 1);
          return None;
        }
        if r.event in current {
          var stored := current[r.event];
          if stored.hash != r.hash || stored.task != r.task || stored.created != CreatedFlag(r)
             || (stored.verdict != r.verdict && !(Accepted(stored.verdict) && Accepted(r.verdict))) {
            Rejected(ledger, known, rs, i + 1);
            return None;
          }
        } else {
          current := current[r.event := Entry(r.hash, r.verdict, CreatedFlag(r), r.task)];
        }
      }
      assert rs[..|rs|] == rs;
      taken := Some(current);
    }

    /** The acknowledgement is one transaction: a rejected one leaves no trace. */
    method Acknowledge(rs: seq<Receipt>) returns (ok: bool)
      modifies this`ledger, this`job
      ensures ok == DeliveryLedger.Acknowledge(old(Now()), rs).Some?
      ensures Now() == if ok then DeliveryLedger.Acknowledge(old(Now()), rs).value else old(Now())
    {
      if |rs| < 1 || |rs| > PAGE_SIZE || exists i, j :: 0 <= i < j < |rs| && rs[i].event == rs[j].event {
        return false;
      }
      var taken := TakeReceipts(rs);
      if taken.None? {
        return false;
      }
      var accepted, created, linked := Tally(taken.value);
      AcceptedSubset(taken.value);
      ledger := taken.value;
      job := job.(counters := job.counters.(sent := |ledger|, accepted := accepted, tasksCreated := |created|,
                                            tasksLinked := |linked|, rejected := |ledger| - accepted),
                  status := Delivering);
      var total := job.counters.allowed;
      if |ledger| == total {
        job := job.(status := if accepted == total then Succeeded else Partial);
      }
      ok := true;
    }

    method Authorize(outcome: Outcome, today: Day)
      modifies this`job, this`events
      ensures Now() == Release(old(Now()), outcome, today)
    {
      if !Guard(job, schedule, today) || job.kind != Daily
         || (job.status != AwaitingEvidence && job.status != Blocked) || job.run.None? {
        return;
      }
      match outcome {
        case Declined(ready) =>
          job := job.(counters := job.counters.(allowed := ready), status := Blocked);
        case NewRelease(id, rows) =>
          if rows == [] || !Sorted(rows) || job.release.Some? {
            return;
          }
          job := job.(counters := job.counters.(allowed := |rows|));
          job := job.(release := Some(id));
          events := rows;
          job := job.(status := Released);
      }
    }

    /** The lowest events without a receipt, up to a page. */
    method ReadPage(today: Day) returns (page: Option<seq<EventRow>>)
      ensures page == Page(job, schedule, events, ledger, today)
    {
      if !Guard(job, schedule, today) {
        return None;
      }
      if job.kind != Daily || (job.status != Released && job.status != Delivering) || job.release.None? {
        return Some([]);
      }
      var rows := FirstUnacknowledged();
      page := Some(rows);
    }

    method FirstUnacknowledged() returns (rows: seq<EventRow>)
      ensures var left := Unacknowledged(events, ledger); rows == left[..Min(PAGE_SIZE, |left|)]
    {
      rows := [];
      var i := 0;
      assert events[0..] == events;
      ghost var left := Unacknowledged(events, ledger);
      hide *;
      while i < |events| && |rows| < PAGE_SIZE
        invariant 0 <= i <= |events| && |rows| <= PAGE_SIZE
        invariant left == rows + Unacknowledged(events[i..], ledger)
      {
        PageStep(events, ledger, rows, i);
        if events[i].id !in ledger {
          rows := rows + [events[i]];
        }
        i := i + 1;
      }
      PageComplete(events, ledger, rows, i);
    }

    method Fail()
      modifies this`job
      ensures Now() == Apply(old(Now()), Failure)
    {
      if !Terminal(job.status) {
        var attempts := job.counters.failedAttempts + 1;
        job := job.(counters := job.counters.(failedAttempts := attempts));
        if attempts >= MAX_ATTEMPTS {
          job := job.(status := Failed);
        }
      }
    }

    method RetryJob(today: Day)
      modifies this`job
      ensures Now() == Apply(old(Now()), Retry(today))
    {
      if Guard(job, schedule, today) && (job.status == Failed || job.status == Blocked) {
        job := job.(counters := job.counters.(failedAttempts := 0));
        job := job.(status := if job.release.Some? then Released else Queued);
      }
    }

    /** The bounded host loop: read a page, deliver it, acknowledge the answer. */
    method DeliverPages(replies: seq<Reply>, today: Day) returns (result: HostResult)
      modifies this
      ensures (Now(), result) == Host(old(Now()), replies, today, 0)
    {
      hide DeliveryLedger.Acknowledge, Page, Idempotent;
      var pages := 0;
      while pages < MAX_PAGES && pages < |replies|
        invariant pages <= MAX_PAGES && pages <= |replies|
        invariant Host(old(Now()), replies, today, 0) == Host(Now(), replies[pages..], today, pages)
        decreases |replies| - pages
      {
        var page := ReadPage(today);
        if page.None? {
          return Raised;
        }
        if page.value == [] || job.release.None? {
          return NoPendingEvents;
        }
        var reply := replies[pages];
        assert replies[pages..][0] == reply && replies[pages..][1..] == replies[pages + 1..];
        if reply.Silent? || !reply.complete {
          return Raised;
        }
        if Idempotent(receiver, reply.receiver, reply.receipts) {
          receiver := reply.receiver;
          mail := mail + [Mail(job.release.value, reply.receipts)];
        }
        var ok := Acknowledge(reply.receipts);
        if !ok {
          return Raised;
        }
        pages := pages + 1;
        if job.status == Succeeded || job.status == Partial {
          return Finished(job.status);
        }
      }
      result := Resumable(pages);
    }

    method Run(outcome: Option<Outcome>, replies: seq<Reply>, today: Day) returns (result: HostResult)
      modifies this
      ensures (Now(), result) == RunHost(old(Now()), outcome, replies, today)
    {
      hide Host, Release, Apply;
      if job.status == AwaitingEvidence || job.status == Blocked {
        if outcome.Some? {
          Authorize(outcome.value, today);
        }
        if job.status != Released {
          Fail();
          return Raised;
        }
      } else if job.status != Released && job.status != Delivering {
        return NoPendingEvents;
      }
      result := DeliverPages(replies, today);
      if result == Raised {
        Fail();
      }
    }
  }

  lemma {:induction false} Rejected(l: Ledger, events: seq<EventRow>, rs: seq<Receipt>, n: nat)
    requires n <= |rs| && TakeAll(l, events, rs[..n]).None?
    ensures TakeAll(l, events, rs).None?
    decreases |rs| - n
  {
    if n < |rs| {
      assert rs[..n + 1][..n] == rs[..n];
      Rejected(l, events, rs, n + 1);
    } else {
      assert rs[..n] == rs;
    }
  }
}
