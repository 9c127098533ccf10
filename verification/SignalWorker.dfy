/** The signal worker over its tables, statement by statement. Its methods are proved against the
    specification of one call, so that everything proved about histories of calls holds for them. */
module SignalWorker {
  import opened Prelude
  import opened Projection
  import opened Keyset
  import opened Source
  import opened Inactivity
  import opened Episodes
  import opened EpisodeStore
  import Spec = SignalRun
  import opened Safety = SignalRunSafety

  type Run = Spec.Run

  class Worker {
    var sales: seq<Sale>
    var lastId: nat
    var floor: nat
    var holders: nat
    var pending: nat
    var revision: nat
    var enabled: bool
    var active: Option<nat>
    var published: Option<nat>
    var runs: seq<Run>
    var publications: seq<nat>
    var deployed: Spec.Deployed
    var clock: int
    ghost var origins: seq<Spec.Origin>
    const store: SignalStore

    ghost function State(): Spec.Db
      reads this, store
    {
      Spec.Db(sales, lastId, floor, holders, pending, revision, enabled, active, published, runs, publications,
              store.book, deployed, clock, origins)
    }

    ghost predicate Valid()
      reads this, store
    {
      Inv(State())
    }

    constructor (sales: seq<Sale>, deployed: Spec.Deployed, clock: int)
      requires Sorted(sales)
      ensures Valid() && State() == Spec.Initial(sales, map[], deployed, clock)
      ensures fresh(store)
    {
      this.sales, lastId, floor, holders, pending, revision := sales, MaxId(sales), 0, 0, 0, 0;
      enabled, active, published, runs, publications := false, None, None, [], [];
      this.deployed, this.clock, origins := deployed, clock, [];
      store := new SignalStore();
      new;
      InitialOk(sales, map[], deployed, clock);
    }

    method SupersedeRun(id: nat, e: Spec.Error, now: int)
      requires id < |runs|
      modifies this`runs, this`active, this`clock
      ensures State() == Spec.Supersede(old(State()), id, e, now)
    {
      runs := runs[id := runs[id].(status := Spec.Superseded, error := Some(e))];
      runs := runs[id := runs[id].(heartbeat := now)];
      active := None;
      clock := now;
    }

    /** Compare the decision with the published run. */
    method GuardDecision(current: SourceDecision, scope: Scope) returns (decision: SourceDecision)
      ensures decision == Spec.Guarded(State(), current, scope)
    {
      decision := current;
      if published.Some? && published.value < |runs| {
        var previous := runs[published.value];
        if current.effective.Some? && previous.asOf > current.effective.value {
          decision := decision.(allowed := false, notes := decision.notes + [PrecedesPublished]);
        }
        if previous.scope.policy != scope.policy {
          decision := decision.(allowed := false, notes := decision.notes + [ScopeChanged]);
        }
      }
    }

    method FindReusable(decision: SourceDecision, scope: Scope) returns (found: Option<nat>)
      ensures found == Spec.Reusable(State(), decision, scope)
    {
      var candidate := published;
      if active.Some? && active.value < |runs| && runs[active.value].status == Spec.Blocked {
        candidate := active;
      }
      found := None;
      if candidate.Some? && candidate.value < |runs| {
        var c := runs[candidate.value];
        if (c.status == Spec.Succeeded || c.status == Spec.Blocked) && c.decision == decision && c.scope == scope
           && c.algorithm == Spec.AlgorithmOf(deployed, scope) {
          found := candidate;
        }
      }
    }

    /** Insert a new run that starts from the tables of this transaction. */
    method InsertRun(decision: SourceDecision, scope: Scope, now: int) returns (id: nat)
      modifies this`runs, this`active, this`clock, this`origins
      ensures id == |old(runs)|
      ensures State() == Spec.Append(old(State()), Spec.FreshRun(old(State()), decision, scope, now), now)
    {
      id := |runs|;
      var allowed := decision.allowed;
      var run := Spec.Run(
        if allowed then Spec.Running else Spec.Blocked, if allowed then Spec.Scan else Spec.Halted,
        if decision.effective.Some? then decision.effective.value else Min(decision.requested, decision.closed),
        decision.revision, MaxId(sales), 0, None, now, decision, scope, Spec.AlgorithmOf(deployed, scope),
        if allowed then None else Some(Spec.DecisionBlocked), 0, 0, 0, map[], map[], [], multiset{});
      origins := origins + [Spec.Origin(sales, |OpenClients(store.book)|)];
      runs, active, clock := runs + [run], Some(id), now;
    }

    method ScanBatch(id: nat, size: nat)
      requires id < |runs|
      modifies this`runs
      ensures State() == Spec.WithRun(old(State()), id, Spec.ScanBatch(old(runs)[id], sales, size))
    {
      var r := runs[id];
      var rows := Window(sales, r.saleCursor, r.upper, size);
      if rows == [] {
        runs := runs[id := r.(phase := Spec.Assess)];
        return;
      }
      var view := Spec.ViewOf(r);
      r := r.(missing := r.missing + Spec.CountMissing(rows, view));
      r := r.(scanned := r.scanned + |rows|);
      r := r.(days := MergeDays(r.days, OnePassDays(rows, view)));
      r := r.(phones := MergePhones(r.phones, rows, view));
      r := r.(saleCursor := rows[|rows| - 1].id);
      runs := runs[id := r];
    }

    /** The next clients by key; without any, the run is complete. */
    method EvaluateBatch(id: nat, size: nat, now: int, m: Spec.Maths) returns (ok: bool)
      requires id < |runs| && m.log1p(VALUE_CEILING) > 0.0 && store.Valid()
      modifies this`runs, store
      ensures |runs| == |old(runs)| && store.Valid()
      ensures var next := Evaluated(old(State()), id, size, now, m);
        ok == next.Some? && State() == if ok then next.value else old(State())
    {
      hide CountAll, OneByOne, Forward, Spec.Universe, KeysUpTo, FirstKeys, GoodBook, OneByOne, Outcomes;
      var r := runs[id];
      var universe := Spec.Universe(store.book, r);
      var ks := NextKeys(universe, r.clientCursor, size);
      FirstKeysAscend(universe - KeysUpTo(universe, r.clientCursor), size);
      if ks == [] {
        runs := runs[id := r.(phase := Spec.Complete, status := Spec.Succeeded)];
        return true;
      }
      var b := Batch(id, r.asOf, now, r.scope.pilot, r.decision);
      var cases := EvaluateClients(r, ks, m);
      AscendingDistinct(ks);
      store.counts := r.counts;
      ok := store.ReconcileBatch(cases, b);
      if ok {
        r := r.(counts := store.counts, evaluated := r.evaluated + ks, clientCursor := Some(ks[|ks| - 1]));
        runs := runs[id := r];
        assert State() == Spec.WithRun(old(State()), id, r).(book := store.book);
      }
    }

    /** Features and decision of every key, also of keys without purchase days. */
    method EvaluateClients(r: Run, ks: seq<Text>, m: Spec.Maths) returns (cases: seq<Case>)
      requires m.log1p(VALUE_CEILING) > 0.0
      ensures cases == Spec.CasesFor(r, ks, m)
    {
      cases := [];
      for i := 0 to |ks|
        invariant |cases| == i
        invariant forall j :: 0 <= j < i ==> cases[j] == Spec.CaseOf(r, ks[j], m)
      {
        var c := EvaluateClient(r, ks[i], m);
        hide Spec.CaseOf;
        cases := cases + [c];
      }
    }

    method EvaluateClient(r: Run, k: Text, m: Spec.Maths) returns (c: Case)
      requires m.log1p(VALUE_CEILING) > 0.0
      ensures c == Spec.CaseOf(r, k, m)
    {
      hide EvaluatePilot, Inactivity.Evaluate, FirstKeys;
      var phones := if k in r.phones then FirstKeys(r.phones[k].Keys, PHONE_LIMIT) else [];
      var f := m.features(r.days, k, r.asOf).(client := k, phones := phones);
      var d;
      if r.scope.pilot {
        d := EvaluatePilot(f, r.asOf, true, false, m.log1p);
      } else {
        d := Inactivity.Evaluate(f, r.asOf, true, false, m.log1p);
      }
      c := Case(f, d);
    }

    /** Allocate the next sequence number, once for every run. */
    method PublishDelivery(id: nat) returns (ok: bool)
      requires id < |runs|
      modifies this`publications
      ensures ok == Spec.Publishable(runs[id], deployed)
      ensures publications == if ok then Spec.Publish(old(publications), id) else old(publications)
    {
      ok := Spec.Publishable(runs[id], deployed);
      if ok && id !in publications {
        publications := publications + [id];
      }
    }

    /** The heartbeat of a batch, and the publication of a run that it completed. */
    method Settle(id: nat, now: int) returns (ok: bool)
      requires id < |runs|
      modifies this`runs, this`active, this`published, this`publications, this`clock
      ensures |runs| == |old(runs)|
      ensures var next := Concluded(old(State()), id, now);
        ok == next.Some? && (ok ==> State() == next.value)
    {
      hide Spec.Publishable, Spec.Publish;
      var r := runs[id].(heartbeat := now);
      runs := runs[id := r];
      clock := now;
      assert State() == Spec.WithRun(old(State()), id, r).(clock := now);
      if r.status != Spec.Succeeded {
        return true;
      }
      published, active := Some(id), None;
      ok := PublishDelivery(id);
    }

    /** Both phases, the heartbeat, and publication. A failure is rolled back by the caller. */
    method Advance(id: nat, call: Spec.Call, m: Spec.Maths) returns (ok: bool)
      requires id < |runs| && runs[id].status == Spec.Running
      requires m.log1p(VALUE_CEILING) > 0.0 && store.Valid()
      modifies this`runs, this`active, this`published, this`publications, this`clock, store
      ensures |runs| == |old(runs)| && store.Valid() && (!ok ==> store.book == old(store.book))
      ensures var next := Spec.Advance(old(State()), id, call, m);
        ok == next.Some? && (ok ==> State() == next.value)
    {
      if runs[id].phase == Spec.Scan {
        ScanSettles(State(), id, call, m);
        hide Spec.Advance, Spec.ScanBatch, Concluded, GoodBook;
        ScanBatch(id, call.scanSize);
        ok := true;
      } else {
        EvaluationSettles(State(), id, call, m);
        hide Spec.Advance, Evaluated, Concluded, GoodBook;
        ok := EvaluateBatch(id, call.clientSize, call.now, m);
      }
      if ok {
        ok := Settle(id, call.now);
      }
    }

    /** The batch as a transaction: committed, or rolled back to where it began. */
    method Transact(id: nat, call: Spec.Call, m: Spec.Maths) returns (ok: bool)
      requires id < |runs| && runs[id].status == Spec.Running
      requires m.log1p(VALUE_CEILING) > 0.0 && store.Valid()
      modifies this`runs, this`active, this`published, this`publications, this`clock, store
      ensures |runs| == |old(runs)|
      ensures var next := Spec.Advance(old(State()), id, call, m);
        ok == next.Some? && State() == if ok then next.value else old(State())
    {
      hide Spec.Advance, GoodBook;
      var saved, savedActive, savedPublished, savedPublications, savedClock := runs, active, published, publications, clock;
      ok := Advance(id, call, m);
      if !ok {
        runs, active, published, publications, clock := saved, savedActive, savedPublished, savedPublications, savedClock;
      }
    }

    /** One call: a transaction that is committed as a whole or rolled back. */
    method RunBatch(call: Spec.Call, m: Spec.Maths) returns (reply: Spec.Reply)
      requires Valid() && m.log1p(VALUE_CEILING) > 0.0 && call.now > clock
      modifies this, store
      ensures (State(), reply) == Spec.RunBatch(old(State()), call, m)
      ensures Valid()
      ensures forall j :: NewlyPublished(old(State()), State(), j) ==> PublishedWell(old(State()), State(), j)
    {
      WorkerKeeps(State(), call, m);
      ActiveOrIdle(State());
      hide Inv, Spec.Advance, Spec.ResumeBlocker, Spec.Incompatible, Spec.Guarded, Spec.Reusable, Spec.FreshRun, Spec.ContextOf,
        NewlyPublished, PublishedWell, GoodBook;
      if !(1 <= call.scanSize <= 5000 && 1 <= call.clientSize <= 1000) {
        return Spec.Raised;
      }
      if holders > 0 {
        return Spec.Busy;
      }
      if !enabled {
        return Spec.Disabled;
      }
      if active.Some? && active.value < |runs| && Spec.InFlight(runs[active.value]) {
        reply := ResumeRun(active.value, call, m);
      } else {
        reply := StartRun(call, m);
      }
    }

    /** Take up the checkpoint of the active run, or give it up. */
    method ResumeRun(id: nat, call: Spec.Call, m: Spec.Maths) returns (reply: Spec.Reply)
      requires id < |runs| && m.log1p(VALUE_CEILING) > 0.0 && store.Valid()
      modifies this, store
      ensures (State(), reply) == Spec.Resume(old(State()), id, call, m)
    {
      hide Spec.Advance, Spec.ResumeBlocker, Spec.Incompatible, Spec.ContextOf, ScopeInUse, GoodBook, Spec.Supersede;
      var r := runs[id];
      var stale := Spec.Incompatible(r, deployed);
      if stale.Some? {
        SupersedeRun(id, stale.value, call.now);
        return Spec.Done(id, Spec.Superseded);
      }
      var requested := if call.asOf.Some? then call.asOf.value else r.decision.requested;
      if requested != r.decision.requested {
        return Spec.Raised;
      }
      var current, scope := SourceContext(call, requested);
      var blocker := Spec.ResumeBlocker(r, current, scope);
      if blocker.Some? {
        SupersedeRun(id, blocker.value, call.now);
        return Spec.Done(id, Spec.Superseded);
      }
      var saved := runs;
      runs := runs[id := r.(status := Spec.Running, error := None)];
      var ok := Transact(id, call, m);
      if ok {
        return Spec.Done(id, runs[id].status);
      }
      runs := saved;
      reply := Spec.Raised;
    }

    method SourceContext(call: Spec.Call, requested: Day) returns (current: SourceDecision, scope: Scope)
      ensures current == Spec.ContextOf(State(), call, requested)
      ensures scope == ScopeInUse(pending > 0, call.scope)
    {
      current := Context(deployed.policy, sales, revision, MaxId(sales), pending > 0, requested, call.closed, call.timezone, call.scope);
      scope := ScopeInUse(pending > 0, call.scope);
    }

    /** Insert a run and do its first batch, in one transaction. */
    method FirstBatch(decision: SourceDecision, scope: Scope, call: Spec.Call, m: Spec.Maths) returns (reply: Spec.Reply)
      requires m.log1p(VALUE_CEILING) > 0.0 && store.Valid()
      modifies this, store
      ensures (State(), reply) == Spec.Begin(old(State()), decision, scope, call, m)
    {
      hide Spec.FreshRun, Spec.Advance, GoodBook;
      var saved, savedActive, savedClock := runs, active, clock;
      ghost var savedOrigins := origins;
      FreshStatus(State(), decision, scope, call.now);
      var id := InsertRun(decision, scope, call.now);
      if !decision.allowed {
        return Spec.Done(id, Spec.Blocked);
      }
      var ok := Transact(id, call, m);
      if ok {
        return Spec.Done(id, runs[id].status);
      }
      runs, active, clock := saved, savedActive, savedClock;
      origins := savedOrigins;
      reply := Spec.Raised;
    }

    /** Begin a run, or answer with the finished one that the evidence asks for. */
    method StartRun(call: Spec.Call, m: Spec.Maths) returns (reply: Spec.Reply)
      requires m.log1p(VALUE_CEILING) > 0.0 && store.Valid()
      modifies this, store
      ensures (State(), reply) == Spec.Start(old(State()), call, m)
    {
      hide Spec.Guarded, Spec.Reusable, Spec.Begin, Spec.ContextOf, ScopeInUse, GoodBook;
      var requested := if call.asOf.Some? then call.asOf.value else call.closed;
      var current, scope := SourceContext(call, requested);
      var decision := GuardDecision(current, scope);
      var reuse := FindReusable(decision, scope);
      ReusableIsRun(State(), decision, scope);
      if reuse.Some? {
        reply := Spec.Done(reuse.value, runs[reuse.value].status);
      } else {
        reply := FirstBatch(decision, scope, call, m);
      }
    }

    /** Mark the checkpoint that a failed batch was about, and no other. */
    method RecordFailure(id: nat, heartbeat: int, code: Text, now: int) returns (recorded: bool)
      modifies this`runs, this`clock
      ensures State() == Spec.RecordFailure(old(State()), id, heartbeat, code, now)
    {
      if active != Some(id) || id >= |runs| {
        return false;
      }
      var r := runs[id];
      if (r.status != Spec.Running && r.status != Spec.Failed) || !enabled || r.heartbeat != heartbeat {
        return false;
      }
      runs := runs[id := r.(status := Spec.Failed, error := Some(Spec.Reported(code)), errors := r.errors + 1, heartbeat := now)];
      clock := now;
      recorded := true;
    }

    method Pause()
      modifies this`runs, this`enabled
      ensures State() == Spec.PauseRun(old(State()))
    {
      enabled := false;
      if active.Some? && active.value < |runs| && runs[active.value].status == Spec.Running {
        runs := runs[active.value := runs[active.value].(status := Spec.Paused)];
      }
    }
  }

  /** The evaluation of the next clients on the tables; None when it fails on an episode of a later cutoff. */
  function Evaluated(db: Spec.Db, id: nat, size: nat, now: int, m: Spec.Maths): Option<Spec.Db>
    requires id < |db.runs| && m.log1p(VALUE_CEILING) > 0.0
  {
    var r := db.runs[id];
    var ks := NextKeys(Spec.Universe(db.book, r), r.clientCursor, size);
    if ks == [] then Some(Spec.WithRun(db, id, r.(phase := Spec.Complete, status := Spec.Succeeded)))
    else
      var b := Batch(id, r.asOf, now, r.scope.pilot, r.decision);
      var cases := Spec.CasesFor(r, ks, m);
      if !Forward(db.book, cases, b) then None
      else Some(Spec.WithRun(db, id, r.(counts := CountAll(r.counts, db.book, cases, b), evaluated := r.evaluated + ks,
                                        clientCursor := Some(ks[|ks| - 1])))
                  .(book := OneByOne(db.book, cases, b)))
  }

  /** The end of a batch on the tables; None when a completed run cannot be published. */
  function Concluded(db: Spec.Db, id: nat, now: int): Option<Spec.Db>
    requires id < |db.runs|
  {
    var r := db.runs[id].(heartbeat := now);
    var beaten := Spec.WithRun(db, id, r).(clock := now);
    if r.status != Spec.Succeeded then Some(beaten)
    else if !Spec.Publishable(r, db.deployed) then None
    else Some(beaten.(published := Some(id), active := None, publications := Spec.Publish(db.publications, id)))
  }

  lemma ConcludesRunning(db: Spec.Db, id: nat, r: Run, book: Book, now: int)
    requires id < |db.runs| && r.status == Spec.Running
    ensures Concluded(Spec.WithRun(db, id, r).(book := book), id, now) ==
              Some(Spec.WithRun(db, id, r.(heartbeat := now)).(book := book, clock := now))
  {
    assert db.runs[id := r][id := r.(heartbeat := now)] == db.runs[id := r.(heartbeat := now)];
  }

  lemma ConcludesDone(db: Spec.Db, id: nat, now: int)
    requires id < |db.runs|
    ensures var done := db.runs[id].(phase := Spec.Complete, status := Spec.Succeeded);
      Concluded(Spec.WithRun(db, id, done), id, now) ==
        if Spec.Publishable(Finish(db, id, now).runs[id], db.deployed) then Some(Finish(db, id, now)) else None
  {
    hide Spec.Publishable, Spec.Publish;
    var done := db.runs[id].(phase := Spec.Complete, status := Spec.Succeeded);
    assert db.runs[id := done][id := done.(heartbeat := now)] == db.runs[id := done.(heartbeat := now)];
  }

  lemma ScanSettles(db: Spec.Db, id: nat, call: Spec.Call, m: Spec.Maths)
    requires id < |db.runs| && db.runs[id].status == Spec.Running && db.runs[id].phase == Spec.Scan
    requires m.log1p(VALUE_CEILING) > 0.0
    ensures Spec.Advance(db, id, call, m) ==
              Concluded(Spec.WithRun(db, id, Spec.ScanBatch(db.runs[id], db.sales, call.scanSize)), id, call.now)
    ensures Spec.Advance(db, id, call, m).Some?
  {
    var scanned := Spec.ScanBatch(db.runs[id], db.sales, call.scanSize);
    ScanIs(db, id, call, m);
    ScanRuns(db.runs[id], db.sales, call.scanSize);
    hide Spec.Advance, Spec.ScanBatch, Concluded;
    ConcludesRunning(db, id, scanned, db.book, call.now);
    assert Spec.WithRun(db, id, scanned).(book := db.book) == Spec.WithRun(db, id, scanned);
  }

  /** What an evaluation batch writes, without the heartbeat. */
  lemma EvaluatedIs(db: Spec.Db, id: nat, size: nat, now: int, m: Spec.Maths, ks: seq<Text>)
    requires id < |db.runs| && m.log1p(VALUE_CEILING) > 0.0
    requires ks == NextKeys(Spec.Universe(db.book, db.runs[id]), db.runs[id].clientCursor, size) && ks != []
    ensures var r := db.runs[id];
      var b, cases := Batch(id, r.asOf, now, r.scope.pilot, r.decision), Spec.CasesFor(r, ks, m);
      Evaluated(db, id, size, now, m) ==
        if !Forward(db.book, cases, b) then None
        else Some(Spec.WithRun(db, id, AfterBatch(r, db.book, cases, ks, b, now).(heartbeat := r.heartbeat))
                    .(book := OneByOne(db.book, cases, b)))
  {
    hide CountAll, OneByOne, Forward, Spec.Universe, NextKeys, Spec.CasesFor;
  }

  lemma EvaluationSettles(db: Spec.Db, id: nat, call: Spec.Call, m: Spec.Maths)
    requires id < |db.runs| && db.runs[id].status == Spec.Running && db.runs[id].phase != Spec.Scan
    requires m.log1p(VALUE_CEILING) > 0.0
    ensures Spec.Advance(db, id, call, m) ==
              var next := Evaluated(db, id, call.clientSize, call.now, m);
              if next.None? then None else Concluded(next.value, id, call.now)
    ensures var next := Evaluated(db, id, call.clientSize, call.now, m);
      next.Some? && Concluded(next.value, id, call.now).None? ==> next.value.book == db.book
  {
    var r := db.runs[id];
    var ks := NextKeys(Spec.Universe(db.book, r), r.clientCursor, call.clientSize);
    if ks == [] {
      DoneIs(db, id, call, m);
      hide Spec.Advance, Spec.Universe, NextKeys, Spec.Publish, Spec.Publishable, Concluded, Finish;
      ConcludesDone(db, id, call.now);
    } else {
      var b := Batch(id, r.asOf, call.now, r.scope.pilot, r.decision);
      var cases := Spec.CasesFor(r, ks, m);
      var after := AfterBatch(r, db.book, cases, ks, b, call.now);
      assert after.(heartbeat := r.heartbeat).status == Spec.Running;
      assert after.(heartbeat := r.heartbeat).(heartbeat := call.now) == after;
      hide *;
      AssessIs(db, id, call, m, ks);
      EvaluatedIs(db, id, call.clientSize, call.now, m, ks);
      ConcludesRunning(db, id, after.(heartbeat := r.heartbeat), OneByOne(db.book, cases, b), call.now);
    }
  }

  lemma ScanRuns(r: Run, sales: seq<Sale>, size: nat)
    ensures Spec.ScanBatch(r, sales, size).status == r.status
  {
  }

  lemma ReusableIsRun(db: Spec.Db, decision: SourceDecision, scope: Scope)
    ensures Spec.Reusable(db, decision, scope).Some? ==> Spec.Reusable(db, decision, scope).value < |db.runs|
  {
  }

  lemma FreshStatus(db: Spec.Db, d: SourceDecision, scope: Scope, now: int)
    ensures Spec.FreshRun(db, d, scope, now).status == if d.allowed then Spec.Running else Spec.Blocked
  {
  }
}
