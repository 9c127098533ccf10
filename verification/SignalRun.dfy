/** The resumable signal run: it scans the stored sales by primary key, evaluates the clients by key,
    and publishes, one committed batch at a time. Importers, deletions, operators, crashes and
    deployments act between the batches. */
module SignalRun {
  import opened Prelude
  import opened Projection
  import opened Keyset
  import opened Source
  import opened Inactivity
  import opened Episodes
  import opened EpisodeStore

  datatype RunStatus = Running | Paused | Failed | Blocked | Succeeded | Superseded

  datatype Phase = Scan | Assess | Complete | Halted

  datatype Error =
    | SourcePolicyChanged | AlgorithmPolicyChanged | InvalidCheckpointPhase
    | EvidenceChanged | DecisionBlocked | ContextChanged | CutoffChanged | ScopeDiffers
    | Reported(code: Text)

  /** A run with the rows that other tables keep for it. A run is identified by its position. */
  datatype Run = Run(
    status: RunStatus, phase: Phase, asOf: Day, revision: nat, upper: nat,
    saleCursor: nat, clientCursor: Option<Text>, heartbeat: int,
    decision: SourceDecision, scope: Scope, algorithm: nat,
    error: Option<Error>, errors: nat, scanned: nat, missing: nat,
    days: map<Group, DayRow>, phones: map<Text, map<Text, Day>>,
    evaluated: seq<Text>, counts: multiset<Tally>)

  /** Versions of the deployed code: source policy, and algorithm for the pilot and any other scope. */
  datatype Deployed = Deployed(policy: nat, pilot: nat, legacy: nat)

  /** What the database held when a run began. The code never reads it; the properties do. */
  datatype Origin = Origin(sales: seq<Sale>, open: int)

  /** `holders` importers hold the shared source lock; `floor` is the last id that was handed out before
      the first of them came. `pending` imports are queued or processing. */
  datatype Db = Db(
    sales: seq<Sale>, lastId: nat, floor: nat, holders: nat, pending: nat, revision: nat,
    enabled: bool, active: Option<nat>, published: Option<nat>, runs: seq<Run>, publications: seq<nat>,
    book: Book, deployed: Deployed, clock: int, origins: seq<Origin>)

  /** The feature query over the purchase-day table, and the logarithm of the score. */
  datatype Maths = Maths(features: (map<Group, DayRow>, Text, Day) -> Features, log1p: real -> real)

  datatype Call = Call(asOf: Option<Day>, scanSize: nat, clientSize: nat, closed: Day,
                       scope: Option<Scope>, timezone: Text, now: int)

  datatype Reply = Busy | Disabled | Raised | Done(run: nat, status: RunStatus)

  predicate InFlight(r: Run)
  {
    r.status == Running || r.status == Paused || r.status == Failed
  }

  function ViewOf(r: Run): View
  {
    View(r.asOf, r.scope)
  }

  function AlgorithmOf(d: Deployed, scope: Scope): nat
  {
    if scope.pilot then d.pilot else d.legacy
  }

  // ---------------------------------------------------------------- one batch

  function Incompatible(r: Run, d: Deployed): Option<Error>
  {
    if r.decision.policy != d.policy then Some(SourcePolicyChanged)
    else if r.algorithm != AlgorithmOf(d, r.scope) then Some(AlgorithmPolicyChanged)
    else if r.phase != Scan && r.phase != Assess then Some(InvalidCheckpointPhase)
    else None
  }

  /** The frozen snapshot must still be the current one before a checkpoint may go on. */
  function ResumeBlocker(r: Run, current: SourceDecision, scope: Scope): Option<Error>
  {
    if r.decision.policy != current.policy then Some(SourcePolicyChanged)
    else if r.decision.revision != r.revision || r.revision != current.revision
            || (r.decision.revision, r.decision.upper) != (current.revision, current.upper) then Some(EvidenceChanged)
    else if !current.allowed then Some(DecisionBlocked)
    else if r.decision.timezone != current.timezone then Some(ContextChanged)
    else if r.decision.requested != current.requested || r.decision.effective != Some(r.asOf)
            || current.effective.None? || !(r.asOf <= current.effective.value <= current.requested) then Some(CutoffChanged)
    else if r.scope != scope then Some(ScopeDiffers)
    else None
  }

  function ContextOf(db: Db, call: Call, requested: Day): SourceDecision
  {
    Context(db.deployed.policy, db.sales, db.revision, MaxId(db.sales), db.pending > 0,
            requested, call.closed, call.timezone, call.scope)
  }

  function WithRun(db: Db, id: nat, r: Run): Db
    requires id < |db.runs|
  {
    db.(runs := db.runs[id := r])
  }

  function Supersede(db: Db, id: nat, e: Error, now: int): Db
    requires id < |db.runs|
  {
    WithRun(db, id, db.runs[id].(status := Superseded, error := Some(e), heartbeat := now))
      .(active := None, clock := now)
  }

  /** The decision after comparing it with the published run. */
  function Guarded(db: Db, current: SourceDecision, scope: Scope): SourceDecision
  {
    if db.published.None? || db.published.value >= |db.runs| then current else
      var p := db.runs[db.published.value];
      var d := if current.effective.Some? && p.asOf > current.effective.value
               then current.(allowed := false, notes := current.notes + [PrecedesPublished]) else current;
      if p.scope.policy != scope.policy then d.(allowed := false, notes := d.notes + [ScopeChanged]) else d
  }

  /** The finished run whose evidence is asked for again, if there is one. */
  function Reusable(db: Db, decision: SourceDecision, scope: Scope): Option<nat>
  {
    var candidate :=
      if db.active.Some? && db.active.value < |db.runs| && db.runs[db.active.value].status == Blocked then db.active
      else db.published;
    if candidate.Some? && candidate.value < |db.runs|
       && (db.runs[candidate.value].status == Succeeded || db.runs[candidate.value].status == Blocked)
       && db.runs[candidate.value].decision == decision
       && db.runs[candidate.value].scope == scope
       && db.runs[candidate.value].algorithm == AlgorithmOf(db.deployed, scope)
    then candidate else None
  }

  function FreshRun(db: Db, decision: SourceDecision, scope: Scope, now: int): Run
  {
    Run(if decision.allowed then Running else Blocked, if decision.allowed then Scan else Halted,
        if decision.effective.Some? then decision.effective.value else Min(decision.requested, decision.closed),
        decision.revision, MaxId(db.sales), 0, None, now, decision, scope, AlgorithmOf(db.deployed, scope),
        if decision.allowed then None else Some(DecisionBlocked), 0, 0, 0, map[], map[], [], multiset{})
  }

  function Append(db: Db, r: Run, now: int): Db
  {
    db.(runs := db.runs + [r], active := Some(|db.runs|), clock := now,
        origins := db.origins + [Origin(db.sales, |OpenClients(db.book)|)])
  }

  function CountMissing(rows: seq<Sale>, v: View): nat
  {
    if rows == [] then 0 else
      var last := rows[|rows| - 1];
      CountMissing(rows[..|rows| - 1], v) + (if InBase(last, v) && last.client.None? then 1 else 0)
  }

  /** One transaction of the scan. */
  function ScanBatch(r: Run, sales: seq<Sale>, size: nat): Run
  {
    var rows := Window(sales, r.saleCursor, r.upper, size);
    if rows == [] then r.(phase := Assess) else
      r.(missing := r.missing + CountMissing(rows, ViewOf(r)),
         scanned := r.scanned + |rows|,
         days := MergeDays(r.days, OnePassDays(rows, ViewOf(r))),
         phones := MergePhones(r.phones, rows, ViewOf(r)),
         saleCursor := rows[|rows| - 1].id)
  }

  /** The clients to evaluate: those with purchase days and those in scope that ever had a signal. */
  function Universe(book: Book, r: Run): set<Text>
  {
    (set g | g in r.days :: g.0) + (set k | k in book && (r.scope.clients.Some? ==> k in r.scope.clients.value))
  }

  function CaseOf(r: Run, k: Text, m: Maths): Case
    requires m.log1p(VALUE_CEILING) > 0.0
  {
    var phones := if k in r.phones then FirstKeys(r.phones[k].Keys, PHONE_LIMIT) else [];
    var f := m.features(r.days, k, r.asOf).(client := k, phones := phones);
    Case(f, if r.scope.pilot then EvaluatePilot(f, r.asOf, true, false, m.log1p)
            else Inactivity.Evaluate(f, r.asOf, true, false, m.log1p))
  }

  function CasesFor(r: Run, ks: seq<Text>, m: Maths): (cases: seq<Case>)
    requires m.log1p(VALUE_CEILING) > 0.0
    ensures Sane(cases) && KeysOf(cases) == ks
  {
    var cases := seq(|ks|, i requires 0 <= i < |ks| => CaseOf(r, ks[i], m));
    assert forall i :: 0 <= i < |ks| ==> cases[i] == CaseOf(r, ks[i], m);
    cases
  }

  /** The publication of a completed run under the next sequence number, its position in the list. */
  function Publish(publications: seq<nat>, id: nat): seq<nat>
  {
    if id in publications then publications else publications + [id]
  }

  predicate Publishable(r: Run, d: Deployed)
  {
    && r.status == Succeeded && r.decision.policy == d.policy && r.algorithm == AlgorithmOf(d, r.scope)
    && r.decision.allowed && r.decision.effective == Some(r.asOf)
  }

  /** A batch of an accepted run. It fails, and changes nothing, on an episode of a later cutoff. */
  function Advance(db: Db, id: nat, call: Call, m: Maths): Option<Db>
    requires id < |db.runs| && m.log1p(VALUE_CEILING) > 0.0
  {
    var r := db.runs[id];
    if r.phase == Scan then
      Some(WithRun(db, id, ScanBatch(r, db.sales, call.scanSize).(heartbeat := call.now)).(clock := call.now))
    else
      var ks := NextKeys(Universe(db.book, r), r.clientCursor, call.clientSize);
      if ks == [] then
        var done := r.(phase := Complete, status := Succeeded, heartbeat := call.now);
        if !Publishable(done, db.deployed) then None else
          Some(WithRun(db, id, done).(published := Some(id), active := None,
                                      publications := Publish(db.publications, id), clock := call.now))
      else
        var b := Batch(id, r.asOf, call.now, r.scope.pilot, r.decision);
        var cases := CasesFor(r, ks, m);
        if !Forward(db.book, cases, b) then None else
          Some(WithRun(db, id, r.(counts := CountAll(r.counts, db.book, cases, b),
                                  evaluated := r.evaluated + ks, clientCursor := Some(ks[|ks| - 1]),
                                  heartbeat := call.now))
               .(book := OneByOne(db.book, cases, b), clock := call.now))
  }

  function Resume(db: Db, id: nat, call: Call, m: Maths): (Db, Reply)
    requires id < |db.runs| && m.log1p(VALUE_CEILING) > 0.0
  {
    var r := db.runs[id];
    var requested := if call.asOf.Some? then call.asOf.value else r.decision.requested;
    var stale := Incompatible(r, db.deployed);
    if stale.Some? then (Supersede(db, id, stale.value, call.now), Done(id, Superseded))
    else if requested != r.decision.requested then (db, Raised)
    else
      var blocker := ResumeBlocker(r, ContextOf(db, call, requested), ScopeInUse(db.pending > 0, call.scope));
      if blocker.Some? then (Supersede(db, id, blocker.value, call.now), Done(id, Superseded))
      else
        var next := Advance(WithRun(db, id, r.(status := Running, error := None)), id, call, m);
        if next.None? then (db, Raised) else (next.value, Done(id, next.value.runs[id].status))
  }

  function Start(db: Db, call: Call, m: Maths): (Db, Reply)
    requires m.log1p(VALUE_CEILING) > 0.0
  {
    var requested := if call.asOf.Some? then call.asOf.value else call.closed;
    var scope := ScopeInUse(db.pending > 0, call.scope);
    var decision := Guarded(db, ContextOf(db, call, requested), scope);
    var reuse := Reusable(db, decision, scope);
    if reuse.Some? then (db, Done(reuse.value, db.runs[reuse.value].status))
    else Begin(db, decision, scope, call, m)
  }

  /** Insert a run and, when the decision allows it, do its first batch. */
  function Begin(db: Db, decision: SourceDecision, scope: Scope, call: Call, m: Maths): (Db, Reply)
    requires m.log1p(VALUE_CEILING) > 0.0
  {
    var id := |db.runs|;
    var begun := Append(db, FreshRun(db, decision, scope, call.now), call.now);
    if !decision.allowed then (begun, Done(id, Blocked))
    else
      var next := Advance(begun, id, call, m);
      if next.None? then (db, Raised) else (next.value, Done(id, next.value.runs[id].status))
  }

  /** One call of the worker: a single transaction under the exclusive source lock. */
  function RunBatch(db: Db, call: Call, m: Maths): (Db, Reply)
    requires m.log1p(VALUE_CEILING) > 0.0
  {
    if !(1 <= call.scanSize <= 5000 && 1 <= call.clientSize <= 1000) then (db, Raised)
    else if db.holders > 0 then (db, Busy)
    else if !db.enabled then (db, Disabled)
    else if db.active.Some? && db.active.value < |db.runs| && InFlight(db.runs[db.active.value])
    then Resume(db, db.active.value, call, m)
    else Start(db, call, m)
  }

  // ---------------------------------------------------------------- everything else that happens

  /** An import that ends, as completed or as failed, leaves the pending ones: `FinishImport`. A cancelled one keeps its
      status, and so stays pending until it is taken up again: `AbortImport`. Both count as a change of the sales. A
      killed process only loses its lock: `KillImport`. */
  datatype Action =
    | QueueImport | BeginImport | ImportRow(sale: Sale) | FinishImport | AbortImport | KillImport
    | DeleteSales(ids: set<nat>)
    | WorkerCall(call: Call, maths: Maths)
    | Enable | Pause
    | ReportFailure(run: nat, heartbeat: int, code: Text, now: int)
    | ReportShutdown(run: nat, heartbeat: int)
    | Deploy(versions: Deployed)

  /** An error report names the checkpoint it is about, by run and heartbeat. */
  function RecordFailure(db: Db, id: nat, heartbeat: int, code: Text, now: int): Db
  {
    if db.active != Some(id) || id >= |db.runs| then db else
      var r := db.runs[id];
      if (r.status != Running && r.status != Failed) || !db.enabled || r.heartbeat != heartbeat then db
      else WithRun(db, id, r.(status := Failed, error := Some(Reported(code)), errors := r.errors + 1, heartbeat := now))
             .(clock := now)
  }

  function RecordShutdown(db: Db, id: nat, heartbeat: int): Db
  {
    if db.active != Some(id) || id >= |db.runs| then db else
      var r := db.runs[id];
      if r.status == Running && r.heartbeat == heartbeat then WithRun(db, id, r.(status := Paused)) else db
  }

  function PauseRun(db: Db): Db
  {
    var off := db.(enabled := false);
    if db.active.Some? && db.active.value < |db.runs| && db.runs[db.active.value].status == Running
    then WithRun(off, db.active.value, db.runs[db.active.value].(status := Paused)) else off
  }

  /** Ids come from a sequence, so that a live importer only adds ids above the floor; two importers
      may still commit in any order. */
  predicate Insertable(db: Db, s: Sale)
  {
    db.holders > 0 && s.id > db.floor && forall i :: 0 <= i < |db.sales| ==> db.sales[i].id != s.id
  }

  /** An event that is not possible leaves the database as it is. Clocks only move forward. */
  function Apply(db: Db, e: Action): Db
  {
    match e
    case QueueImport => db.(pending := db.pending + 1)
    case BeginImport => db.(holders := db.holders + 1, floor := if db.holders == 0 then db.lastId else db.floor)
    case ImportRow(s) =>
      if Insertable(db, s) then db.(sales := Insert(db.sales, s), lastId := Max(db.lastId, s.id)) else db
    case FinishImport =>
      if db.holders > 0 && db.pending > 0
      then db.(holders := db.holders - 1, pending := db.pending - 1, revision := db.revision + 1) else db
    case AbortImport =>
      if db.holders > 0 then db.(holders := db.holders - 1, revision := db.revision + 1) else db
    case KillImport =>
      if db.holders > 0 then db.(holders := db.holders - 1) else db
    case DeleteSales(ids) => db.(sales := Remove(db.sales, ids), revision := db.revision + 1)
    case WorkerCall(call, m) =>
      if m.log1p(VALUE_CEILING) > 0.0 && call.now > db.clock then RunBatch(db, call, m).0 else db
    case Enable => db.(enabled := true)
    case Pause => PauseRun(db)
    case ReportFailure(id, heartbeat, code, now) =>
      if now > db.clock then RecordFailure(db, id, heartbeat, code, now) else db
    case ReportShutdown(id, heartbeat) => RecordShutdown(db, id, heartbeat)
    case Deploy(versions) => db.(deployed := versions)
  }

  function Initial(sales: seq<Sale>, book: Book, deployed: Deployed, clock: int): Db
  {
    Db(sales, MaxId(sales), 0, 0, 0, 0, false, None, None, [], [], book, deployed, clock, [])
  }

  function Play(db: Db, events: seq<Action>): Db
  {
    if events == [] then db else Apply(Play(db, events[..|events| - 1]), events[|events| - 1])
  }
}
