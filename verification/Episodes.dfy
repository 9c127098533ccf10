/** Inactivity episodes of clients: an open episode is reassessed, suspended, escalated or resolved,
    a resolved client may get a new episode, and every meaningful change is logged. */
module Episodes {
  import opened Prelude
  import opened Inactivity
  import Source

  datatype Status = Active | Suspended | Resolved

  datatype Resolution = PurchaseOccurred | DataCorrection | ModelReevaluation | Because(reason: Reason)

  datatype Event = Created | Updated | Escalated | Deescalated | Suspension | Resumption | Closure

  datatype Evidence = Evidence(name: Text, phones: seq<Text>, severity: int, score: int, confidence: int,
                               metrics: Metrics, pilot: bool, source: Source.SourceDecision)

  datatype Row = Row(client: Text, episode: nat, status: Status, kind: Kind, anchor: Day,
                     detectedAt: int, updatedAt: int, evaluatedAt: int, resolvedAt: Option<int>,
                     resolution: Option<Resolution>, revision: nat, run: nat, asOf: Day, evidence: Evidence)

  /** A line of the append-only change log; `payload` is the row as it was written. */
  datatype Change = Change(revision: nat, event: Event, at: int, run: nat, payload: Row)

  datatype Episode = Episode(row: Row, log: seq<Change>)

  /** The episodes of one client, by episode number. */
  type History = seq<Episode>

  type Book = map<Text, History>

  /** What a batch knows besides its features: run, cutoff, clock, algorithm and frozen source evidence. */
  datatype Batch = Batch(run: nat, asOf: Day, now: int, pilot: bool, source: Source.SourceDecision)

  /** One client of a batch: its features and the decision of the evaluator about them. */
  datatype Case = Case(f: Features, d: Decision)

  datatype Tally =
    | Processed | EligibleClient | NotEligibleClient | MultiplePhones
    | OfEvent(event: Event) | OfReason(reason: Reason) | OfStatus(status: Status) | OfKind(kind: Kind)

  predicate Open(h: History)
  {
    h != [] && h[|h| - 1].row.status != Resolved
  }

  predicate Backwards(h: History, b: Batch)
  {
    h != [] && h[|h| - 1].row.asOf > b.asOf
  }

  // ---------------------------------------------------------------- one client

  function ApplyEvidence(r: Row, c: Case, b: Batch): Row
  {
    var resolved := r.status == Resolved;
    r.(asOf := b.asOf, run := b.run,
       evidence := Evidence(c.f.name, c.f.phones,
                            if resolved then 0 else if r.kind == ChurnRisk then 3 else 2,
                            if resolved then 0 else c.d.score,
                            c.d.confidence, c.d.metrics, b.pilot, b.source))
  }

  function Record(e: Episode, event: Event, b: Batch): Episode
  {
    var r := e.row.(revision := e.row.revision + 1, updatedAt := b.now, run := b.run);
    Episode(r, e.log + [Change(r.revision, event, b.now, b.run, r)])
  }

  function WithLast(h: History, e: Episode): History
    requires h != []
  {
    h[..|h| - 1] + [e]
  }

  /** First loop: a purchase after the anchor resolves the open episode. */
  predicate Bought(h: History, c: Case)
  {
    && Open(h)
    && c.d.reason != SourceUnreliable
    && c.f.last.Some? && c.f.last.value > h[|h| - 1].row.anchor
  }

  function ResolvePurchase(e: Episode, c: Case, b: Batch): Episode
  {
    var r := e.row.(status := Resolved, resolvedAt := Some(b.now), resolution := Some(PurchaseOccurred),
                    evaluatedAt := b.now, asOf := b.asOf);
    Record(Episode(ApplyEvidence(r, c, b), e.log), Closure, b)
  }

  function Close(h: History, c: Case, b: Batch): History
  {
    if Bought(h, c) then WithLast(h, ResolvePurchase(h[|h| - 1], c, b)) else h
  }

  /** Second loop: the new status of an episode that is still open. */
  function Verdict(r: Row, c: Case, b: Batch): Row
    requires Meaningful(c.f, c.d)
  {
    if !c.d.eligible then r.(status := Suspended, resolution := Some(Because(c.d.reason)))
    else if c.f.last.value < r.anchor then
      r.(status := Resolved, resolvedAt := Some(b.now), resolution := Some(DataCorrection))
    else if c.d.kind.None? then
      r.(status := Resolved, resolvedAt := Some(b.now), resolution := Some(ModelReevaluation))
    else r.(status := Active, kind := c.d.kind.value, resolution := None)
  }

  /** A row without its bookkeeping: two rows differ meaningfully iff this differs. */
  function Meaning(r: Row): Row
  {
    r.(evaluatedAt := 0, run := 0, updatedAt := 0, revision := 0)
  }

  function EventOf(before: Row, after: Row): Event
  {
    if after.status == Resolved then Closure
    else if before.status != Suspended && after.status == Suspended then Suspension
    else if before.status == Suspended && after.status == Active then Resumption
    else if before.kind != after.kind then (if after.kind == ChurnRisk then Escalated else Deescalated)
    else Updated
  }

  function Assessed(r: Row, c: Case, b: Batch): Row
    requires Meaningful(c.f, c.d)
  {
    ApplyEvidence(Verdict(r, c, b), c, b).(evaluatedAt := b.now)
  }

  predicate Moved(r: Row, c: Case, b: Batch)
    requires Meaningful(c.f, c.d)
  {
    Meaning(r) != Meaning(Assessed(r, c, b))
  }

  function Reassess(e: Episode, c: Case, b: Batch): Episode
    requires Meaningful(c.f, c.d)
  {
    var r := Assessed(e.row, c, b);
    if Moved(e.row, c, b) then Record(Episode(r, e.log), EventOf(e.row, r), b) else Episode(r, e.log)
  }

  function ReassessLast(h: History, c: Case, b: Batch): History
    requires Meaningful(c.f, c.d)
  {
    if Open(h) then WithLast(h, Reassess(h[|h| - 1], c, b)) else h
  }

  function NewEpisode(number: nat, c: Case, b: Batch): Episode
    requires Meaningful(c.f, c.d) && c.d.kind.Some?
  {
    var blank := Evidence(c.f.name, [], 0, 0, 0, c.d.metrics, b.pilot, b.source);
    var r := Row(c.f.client, number, Active, c.d.kind.value, c.f.last.value, b.now, b.now, b.now,
                 None, None, 0, b.run, b.asOf, blank);
    Record(Episode(ApplyEvidence(r, c, b), []), Created, b)
  }

  function Begin(h: History, c: Case, b: Batch): History
    requires Meaningful(c.f, c.d)
  {
    if !Open(h) && c.d.kind.Some?
    then h + [NewEpisode(if h == [] then 1 else h[|h| - 1].row.episode + 1, c, b)]
    else h
  }

  /** Everything a batch does to one client. */
  function Reconcile(h: History, c: Case, b: Batch): History
    requires Meaningful(c.f, c.d)
  {
    Begin(ReassessLast(Close(h, c, b), c, b), c, b)
  }

  function One(t: Tally): multiset<Tally>
  {
    multiset{t}
  }

  /** Everything a batch counts for one client. */
  function Tallies(h: History, c: Case, b: Batch): multiset<Tally>
    requires Meaningful(c.f, c.d)
  {
    var h1 := Close(h, c, b);
    var h2 := ReassessLast(h1, c, b);
    CloseTallies(h, c) + ReviewTallies(h1, c, b) + BeginTallies(h2, c) + FinalTallies(Begin(h2, c, b), c)
  }

  function CloseTallies(h: History, c: Case): multiset<Tally>
  {
    if Bought(h, c) then One(OfEvent(Closure)) else multiset{}
  }

  function BeginTallies(h: History, c: Case): multiset<Tally>
  {
    if !Open(h) && c.d.kind.Some? then One(OfEvent(Created)) else multiset{}
  }

  function ReviewTallies(h: History, c: Case, b: Batch): multiset<Tally>
    requires Meaningful(c.f, c.d)
  {
    if Open(h) && Moved(h[|h| - 1].row, c, b)
    then One(OfEvent(EventOf(h[|h| - 1].row, Assessed(h[|h| - 1].row, c, b))))
    else multiset{}
  }

  function LastTallies(h: History): multiset<Tally>
  {
    if h == [] then multiset{} else
      One(OfStatus(h[|h| - 1].row.status))
      + (if h[|h| - 1].row.status == Active then One(OfKind(h[|h| - 1].row.kind)) else multiset{})
  }

  function FinalTallies(h: History, c: Case): multiset<Tally>
  {
    One(Processed)
    + One(if c.d.eligible then EligibleClient else NotEligibleClient)
    + One(OfReason(c.d.reason))
    + LastTallies(h)
    + (if |c.f.phones| > 1 then One(MultiplePhones) else multiset{})
  }

  // ---------------------------------------------------------------- what a history keeps

  /** The episode automaton: which event may take one logged row to the next. */
  predicate LegalStep(p: Row, event: Event, q: Row)
  {
    && p.status != Resolved
    && match event
       case Created => false
       case Closure => q.status == Resolved
       case Suspension => p.status == Active && q.status == Suspended
       case Resumption => p.status == Suspended && q.status == Active
       case Escalated => p.status == q.status == Active && p.kind == PurchaseOverdue && q.kind == ChurnRisk
       case Deescalated => p.status == q.status == Active && p.kind == ChurnRisk && q.kind == PurchaseOverdue
       case Updated => p.status == q.status && p.kind == q.kind
  }

  /** Revisions 1..n without gaps along a legal path that starts with CREATED. */
  predicate LegalLog(log: seq<Change>)
  {
    && log != []
    && log[0].event == Created && log[0].payload.status == Active
    && (forall i :: 0 <= i < |log| ==> log[i].revision == log[i].payload.revision == i + 1)
    && (forall i :: 0 < i < |log| ==> LegalStep(log[i - 1].payload, log[i].event, log[i].payload))
  }

  /** The last payload is the stored row, except for the last inspection and its run. */
  predicate LogMatches(e: Episode)
  {
    && LegalLog(e.log)
    && var p := e.log[|e.log| - 1].payload;
       e.row == p.(evaluatedAt := e.row.evaluatedAt, run := e.row.run)
  }

  predicate GoodEpisode(e: Episode, client: Text, number: nat)
  {
    && e.row.client == client && e.row.episode == number
    && (e.row.status == Resolved <==> e.row.resolvedAt.Some?)
    && LogMatches(e)
  }

  /** Episodes are numbered 1..n and only the last one may be open. */
  predicate Good(h: History, client: Text)
  {
    && (forall i :: 0 <= i < |h| ==> GoodEpisode(h[i], client, i + 1))
    && (forall i :: 0 <= i < |h| - 1 ==> h[i].row.status == Resolved)
  }

  predicate GoodBook(book: Book)
  {
    forall k :: k in book ==> book[k] != [] && Good(book[k], k)
  }

  /** How an episode may change over time. */
  predicate EpisodeEvolves(e: Episode, e': Episode)
  {
    && e.log <= e'.log
    && e.row.client == e'.row.client && e.row.episode == e'.row.episode
    && e.row.anchor == e'.row.anchor && e.row.detectedAt == e'.row.detectedAt
    && e.row.asOf <= e'.row.asOf
    && (e.row.status == Resolved ==> e' == e)
  }

  /** Episodes are never removed, resolved ones never change, and the log only grows. */
  predicate Evolves(h: History, h': History)
  {
    |h| <= |h'| && forall i :: 0 <= i < |h| ==> EpisodeEvolves(h[i], h'[i])
  }

  lemma EvolvesTransitive(a: History, b: History, c: History)
    requires Evolves(a, b) && Evolves(b, c)
    ensures Evolves(a, c)
  {
    forall i | 0 <= i < |a|
      ensures EpisodeEvolves(a[i], c[i])
    {
      assert EpisodeEvolves(a[i], b[i]) && EpisodeEvolves(b[i], c[i]);
    }
  }

  lemma RecordKeepsLog(e: Episode, r: Row, event: Event, b: Batch)
    requires LogMatches(e)
    requires LegalStep(e.row, event, r) && r.revision == e.row.revision
    ensures LogMatches(Record(Episode(r, e.log), event, b))
  {
    var log := Record(Episode(r, e.log), event, b).log;
    assert forall i :: 0 <= i < |e.log| ==> log[i] == e.log[i];
  }

  lemma CloseKeeps(h: History, c: Case, b: Batch)
    requires Good(h, c.f.client) && !Backwards(h, b)
    ensures Good(Close(h, c, b), c.f.client) && Evolves(h, Close(h, c, b))
  {
    if Bought(h, c) {
      var e := h[|h| - 1];
      var r := ApplyEvidence(e.row.(status := Resolved, resolvedAt := Some(b.now), resolution := Some(PurchaseOccurred),
                                    evaluatedAt := b.now, asOf := b.asOf), c, b);
      RecordKeepsLog(e, r, Closure, b);
    }
  }

  lemma ReassessKeeps(e: Episode, c: Case, b: Batch, number: nat)
    requires Meaningful(c.f, c.d)
    requires GoodEpisode(e, c.f.client, number) && e.row.status != Resolved && e.row.asOf <= b.asOf
    ensures GoodEpisode(Reassess(e, c, b), c.f.client, number) && EpisodeEvolves(e, Reassess(e, c, b))
  {
    var r := Assessed(e.row, c, b);
    if Moved(e.row, c, b) {
      RecordKeepsLog(e, r, EventOf(e.row, r), b);
    }
  }

  lemma ReassessLastKeeps(h: History, c: Case, b: Batch)
    requires Meaningful(c.f, c.d)
    requires Good(h, c.f.client) && !Backwards(h, b)
    ensures Good(ReassessLast(h, c, b), c.f.client) && Evolves(h, ReassessLast(h, c, b))
  {
    if Open(h) {
      ReassessKeeps(h[|h| - 1], c, b, |h|);
    }
  }

  lemma NewEpisodeGood(number: nat, c: Case, b: Batch)
    requires Meaningful(c.f, c.d) && c.d.kind.Some?
    ensures GoodEpisode(NewEpisode(number, c, b), c.f.client, number)
  {
  }

  lemma BeginKeeps(h: History, c: Case, b: Batch)
    requires Meaningful(c.f, c.d)
    requires Good(h, c.f.client)
    ensures Good(Begin(h, c, b), c.f.client) && Evolves(h, Begin(h, c, b))
  {
    if !Open(h) && c.d.kind.Some? {
      NewEpisodeGood(|h| + 1, c, b);
      hide NewEpisode, LogMatches;
    }
  }

  /** Reconciliation keeps the invariant of every client and only ever extends its history. */
  lemma ReconcileKeeps(h: History, c: Case, b: Batch)
    requires Meaningful(c.f, c.d)
    requires Good(h, c.f.client) && !Backwards(h, b)
    ensures Good(Reconcile(h, c, b), c.f.client) && Evolves(h, Reconcile(h, c, b))
  {
    var h1 := Close(h, c, b);
    var h2 := ReassessLast(h1, c, b);
    CloseKeeps(h, c, b);
    ReassessLastKeeps(h1, c, b);
    BeginKeeps(h2, c, b);
    EvolvesTransitive(h, h1, h2);
    EvolvesTransitive(h, h2, Begin(h2, c, b));
  }

  // ---------------------------------------------------------------- repeating a batch

  /** Assessing the row again with the same facts changes nothing that matters. */
  predicate Settled(r: Row, c: Case, b: Batch)
    requires Meaningful(c.f, c.d)
  {
    && r.asOf == b.asOf
    && (c.d.reason != SourceUnreliable && c.f.last.Some? ==> c.f.last.value <= r.anchor)
    && Meaning(r) == Meaning(Assessed(r, c, b))
  }

  predicate SameFacts(b: Batch, again: Batch)
  {
    again.asOf == b.asOf && again.pilot == b.pilot && again.source == b.source
  }

  lemma AssessedSettles(r: Row, c: Case, b: Batch, again: Batch)
    requires Meaningful(c.f, c.d) && SameFacts(b, again)
    requires r.status != Resolved && Verdict(r, c, b).status != Resolved
    requires c.d.reason != SourceUnreliable && c.f.last.Some? ==> c.f.last.value <= r.anchor
    ensures Settled(Assessed(r, c, b), c, again)
  {
  }

  lemma ReassessSettles(e: Episode, c: Case, b: Batch, again: Batch)
    requires Meaningful(c.f, c.d) && SameFacts(b, again)
    requires e.row.status != Resolved && Reassess(e, c, b).row.status != Resolved
    requires c.d.reason != SourceUnreliable && c.f.last.Some? ==> c.f.last.value <= e.row.anchor
    ensures Settled(Reassess(e, c, b).row, c, again)
  {
    AssessedSettles(e.row, c, b, again);
    var r := Assessed(e.row, c, b);
    assert Meaning(Reassess(e, c, b).row) == Meaning(r);
  }

  lemma SettledRepeats(h: History, c: Case, b: Batch)
    requires Meaningful(c.f, c.d)
    requires Open(h) && Settled(h[|h| - 1].row, c, b)
    ensures var h' := Reconcile(h, c, b);
      |h| == |h'| && forall i :: 0 <= i < |h| ==> h[i].log == h'[i].log
  {
    assert !Bought(h, c);
    assert !Moved(h[|h| - 1].row, c, b);
  }

  /** After a batch the client is settled, or it has no open episode and gets none. */
  lemma ReconcileSettles(h: History, c: Case, b: Batch, again: Batch)
    requires Meaningful(c.f, c.d) && SameFacts(b, again)
    requires Good(h, c.f.client)
    ensures var once := Reconcile(h, c, b);
      if Open(once) then Settled(once[|once| - 1].row, c, again) else c.d.kind.None?
  {
    var h1 := Close(h, c, b);
    var h2 := ReassessLast(h1, c, b);
    if Open(h2) {
      assert Open(h1) && h1 == h;
      ReassessSettles(h1[|h1| - 1], c, b, again);
    }
  }

  /** Repeating a batch with the same features, decisions and cutoff logs nothing and opens nothing,
      whenever it happens and whichever run repeats it. */
  lemma RepeatLogsNothing(h: History, c: Case, b: Batch, again: Batch)
    requires Meaningful(c.f, c.d) && SameFacts(b, again)
    requires Good(h, c.f.client)
    ensures var once, twice := Reconcile(h, c, b), Reconcile(Reconcile(h, c, b), c, again);
      |once| == |twice| && forall i :: 0 <= i < |once| ==> once[i].log == twice[i].log
  {
    var once := Reconcile(h, c, b);
    ReconcileSettles(h, c, b, again);
    if Open(once) {
      SettledRepeats(once, c, again);
    }
  }

  // ---------------------------------------------------------------- counters

  function OpenCount(h: History): int
  {
    if Open(h) then 1 else 0
  }

  /** What a multiset of tallies says about created minus closed episodes. */
  function Gain(t: multiset<Tally>): int
  {
    (t[OfEvent(Created)] as int) - (t[OfEvent(Closure)] as int)
  }

  predicate Balanced(t: multiset<Tally>)
  {
    t[Processed] == t[EligibleClient] + t[NotEligibleClient]
  }

  lemma GainAdds(s: multiset<Tally>, t: multiset<Tally>)
    ensures Gain(s + t) == Gain(s) + Gain(t)
    ensures Balanced(s) && Balanced(t) ==> Balanced(s + t)
    ensures (s + t)[Processed] == s[Processed] + t[Processed]
  {
  }

  lemma CloseGain(h: History, c: Case, b: Batch)
    ensures Gain(CloseTallies(h, c)) == OpenCount(Close(h, c, b)) - OpenCount(h)
    ensures CloseTallies(h, c)[Processed] == 0 && Balanced(CloseTallies(h, c))
  {
  }

  lemma ReviewGain(h: History, c: Case, b: Batch)
    requires Meaningful(c.f, c.d)
    ensures Gain(ReviewTallies(h, c, b)) == OpenCount(ReassessLast(h, c, b)) - OpenCount(h)
    ensures ReviewTallies(h, c, b)[Processed] == 0 && Balanced(ReviewTallies(h, c, b))
  {
  }

  lemma BeginGain(h: History, c: Case, b: Batch)
    requires Meaningful(c.f, c.d)
    ensures Gain(BeginTallies(h, c)) == OpenCount(Begin(h, c, b)) - OpenCount(h)
    ensures BeginTallies(h, c)[Processed] == 0 && Balanced(BeginTallies(h, c))
  {
  }

  /** Tallies that say nothing about created or closed episodes, and how many clients they process. */
  predicate Neutral(t: multiset<Tally>, processed: nat)
  {
    Gain(t) == 0 && t[Processed] == processed && t[EligibleClient] + t[NotEligibleClient] == processed
  }

  lemma NeutralAdds(s: multiset<Tally>, t: multiset<Tally>, processed: nat)
    requires Neutral(s, processed) && Neutral(t, 0)
    ensures Neutral(s + t, processed)
  {
  }

  lemma LastNeutral(h: History)
    ensures Neutral(LastTallies(h), 0)
  {
  }

  lemma FinalGain(h: History, c: Case)
    ensures Gain(FinalTallies(h, c)) == 0
    ensures FinalTallies(h, c)[Processed] == 1 && Balanced(FinalTallies(h, c))
  {
    var client := One(Processed) + One(if c.d.eligible then EligibleClient else NotEligibleClient);
    var reason := One(OfReason(c.d.reason));
    var last := LastTallies(h);
    var phones := if |c.f.phones| > 1 then One(MultiplePhones) else multiset{};
    LastNeutral(h);
    assert Neutral(client, 1);
    assert Neutral(reason, 0) && Neutral(phones, 0);
    hide One, Gain, Neutral;
    NeutralAdds(client, reason, 1);
    NeutralAdds(client + reason, last, 1);
    NeutralAdds(client + reason + last, phones, 1);
    NeutralMeans(client + reason + last + phones);
  }

  lemma NeutralMeans(t: multiset<Tally>)
    requires Neutral(t, 1)
    ensures Gain(t) == 0 && t[Processed] == 1 && Balanced(t)
  {
  }

  /** For one client, created minus closed episodes is the change in open episodes, and the client
      is counted once as processed and once as eligible or not eligible. */
  lemma ClientBalance(h: History, c: Case, b: Batch)
    requires Meaningful(c.f, c.d)
    ensures Gain(Tallies(h, c, b)) == OpenCount(Reconcile(h, c, b)) - OpenCount(h)
    ensures Tallies(h, c, b)[Processed] == 1 && Balanced(Tallies(h, c, b))
  {
    var h1 := Close(h, c, b);
    var h2 := ReassessLast(h1, c, b);
    CloseGain(h, c, b);
    ReviewGain(h1, c, b);
    BeginGain(h2, c, b);
    FinalGain(Begin(h2, c, b), c);
    GainAdds(CloseTallies(h, c), ReviewTallies(h1, c, b));
    GainAdds(CloseTallies(h, c) + ReviewTallies(h1, c, b), BeginTallies(h2, c));
    GainAdds(CloseTallies(h, c) + ReviewTallies(h1, c, b) + BeginTallies(h2, c), FinalTallies(Begin(h2, c, b), c));
  }
}
