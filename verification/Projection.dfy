/** The two tables that a signal run builds from the stored sales: one row per client and day,
    and the ten most recently observed phones of every client. The source fills both with bounded
    batches of upserts; this module relates that streaming form to a single pass over all rows. */
module Projection {
  import opened Prelude

  /** A stored sale. `client` is the normalised client key, None when the name is missing or
      normalises to nothing; `name` is the raw name; `phone` is None below ten digits;
      `returned` says that the document number carries one of the return prefixes. */
  datatype Sale = Sale(id: nat, day: Day, department: Text, client: Option<Text>, name: Text,
                       phone: Option<Text>, amount: int, returned: bool)

  /** The business scope of a run; `pilot` says that it selects the pilot algorithm. */
  datatype Scope = Scope(policy: Text, department: Option<Text>, clients: Option<set<Text>>, pilot: bool)

  /** What a run scans for: its frozen cutoff and scope. */
  datatype View = View(asOf: Day, scope: Scope)

  type Group = (Text, Day)

  datatype DayRow = DayRow(name: Text, checks: nat, positive: nat, revenue: int)

  const PHONE_LIMIT := 10

  predicate InBase(s: Sale, v: View)
  {
    && s.day <= v.asOf
    && (v.scope.department.Some? ==> s.department == v.scope.department.value)
    && (v.scope.clients.Some? ==> s.client.Some? && s.client.value in v.scope.clients.value)
  }

  predicate Named(s: Sale, v: View)
  {
    InBase(s, v) && s.client.Some?
  }

  predicate Positive(s: Sale, v: View)
  {
    s.amount > 0 && (v.scope.pilot ==> !s.returned)
  }

  // ---------------------------------------------------------------- one pass: purchase days

  predicate InGroup(s: Sale, v: View, g: Group)
  {
    Named(s, v) && s.client.value == g.0 && s.day == g.1
  }

  /** The rows of one client and day, in primary-key order. */
  function Select(rows: seq<Sale>, v: View, g: Group): seq<Sale>
  {
    if rows == [] then [] else
      var last := rows[|rows| - 1];
      Select(rows[..|rows| - 1], v, g) + (if InGroup(last, v, g) then [last] else [])
  }

  lemma {:induction false} SelectMembers(rows: seq<Sale>, v: View, g: Group)
    ensures forall s :: s in Select(rows, v, g) <==> s in rows && InGroup(s, v, g)
  {
    if rows != [] {
      assert rows == rows[..|rows| - 1] + [rows[|rows| - 1]];
      SelectMembers(rows[..|rows| - 1], v, g);
    }
  }

  lemma SelectSomething(rows: seq<Sale>, v: View, g: Group)
    ensures Select(rows, v, g) != [] <==> g in Groups(rows, v)
  {
    SelectMembers(rows, v, g);
    if Select(rows, v, g) != [] {
      assert Select(rows, v, g)[0] in rows;
    }
  }

  /** The ON CONFLICT clause of the upsert: least name, added counts and revenue. */
  function Combine(a: DayRow, b: DayRow): DayRow
  {
    DayRow(Min(a.name, b.name), a.checks + b.checks, a.positive + b.positive, a.revenue + b.revenue)
  }

  function LeastName(rows: seq<Sale>): (n: Text)
    requires rows != []
    ensures exists s :: s in rows && s.name == n
    ensures forall s :: s in rows ==> n <= s.name
  {
    var last := rows[|rows| - 1];
    assert rows == rows[..|rows| - 1] + [last];
    if |rows| == 1 then last.name else Min(LeastName(rows[..|rows| - 1]), last.name)
  }

  function PositiveCount(rows: seq<Sale>, v: View): nat
  {
    if rows == [] then 0 else
      PositiveCount(rows[..|rows| - 1], v) + (if Positive(rows[|rows| - 1], v) then 1 else 0)
  }

  function Revenue(rows: seq<Sale>): int
  {
    if rows == [] then 0 else Revenue(rows[..|rows| - 1]) + rows[|rows| - 1].amount
  }

  /** The aggregates that a single GROUP BY computes for one group. */
  function Summarise(rows: seq<Sale>, v: View): DayRow
    requires rows != []
  {
    DayRow(LeastName(rows), |rows|, PositiveCount(rows, v), Revenue(rows))
  }

  function Groups(rows: seq<Sale>, v: View): set<Group>
  {
    set s | s in rows && Named(s, v) :: (s.client.value, s.day)
  }

  /** The purchase-day table of one pass over all the rows. */
  function OnePassDays(rows: seq<Sale>, v: View): map<Group, DayRow>
  {
    map g | g in Groups(rows, v) :: (SelectSomething(rows, v, g); Summarise(Select(rows, v, g), v))
  }

  /** The upsert of one batch into the table. */
  function MergeDays(a: map<Group, DayRow>, b: map<Group, DayRow>): map<Group, DayRow>
  {
    map g | g in a.Keys + b.Keys ::
      if g !in b then a[g] else if g !in a then b[g] else Combine(a[g], b[g])
  }

  lemma {:induction false} SelectAppend(a: seq<Sale>, b: seq<Sale>, v: View, g: Group)
    ensures Select(a + b, v, g) == Select(a, v, g) + Select(b, v, g)
  {
    if b == [] {
      assert a + b == a;
    } else {
      assert (a + b)[..|a + b| - 1] == a + b[..|b| - 1];
      SelectAppend(a, b[..|b| - 1], v, g);
    }
  }

  lemma {:induction false} SummariseAppend(a: seq<Sale>, b: seq<Sale>, v: View)
    requires a != [] && b != []
    ensures Summarise(a + b, v) == Combine(Summarise(a, v), Summarise(b, v))
  {
    SumsAppend(a, b, v);
    var n := LeastName(a + b);
    assert n <= LeastName(a) && n <= LeastName(b) by {
      var s :| s in a && s.name == LeastName(a);
      var t :| t in b && t.name == LeastName(b);
      assert s in a + b && t in a + b;
    }
    var w :| w in a + b && w.name == n;
    assert w in a || w in b;
  }

  lemma {:induction false} SumsAppend(a: seq<Sale>, b: seq<Sale>, v: View)
    ensures PositiveCount(a + b, v) == PositiveCount(a, v) + PositiveCount(b, v)
    ensures Revenue(a + b) == Revenue(a) + Revenue(b)
  {
    if b == [] {
      assert a + b == a;
    } else {
      assert (a + b)[..|a + b| - 1] == a + b[..|b| - 1];
      SumsAppend(a, b[..|b| - 1], v);
    }
  }

  lemma GroupsAppend(a: seq<Sale>, b: seq<Sale>, v: View)
    ensures Groups(a + b, v) == Groups(a, v) + Groups(b, v)
  {
    forall g: Group
      ensures g in Groups(a + b, v) <==> g in Groups(a, v) + Groups(b, v)
    {
      SelectAppend(a, b, v, g);
      SelectSomething(a, v, g);
      SelectSomething(b, v, g);
      SelectSomething(a + b, v, g);
    }
  }

  lemma DayStreams(a: seq<Sale>, b: seq<Sale>, v: View, g: Group)
    requires g in Groups(a + b, v)
    ensures g in MergeDays(OnePassDays(a, v), OnePassDays(b, v))
    ensures MergeDays(OnePassDays(a, v), OnePassDays(b, v))[g] == OnePassDays(a + b, v)[g]
  {
    var x, y := Select(a, v, g), Select(b, v, g);
    assert Select(a + b, v, g) == x + y by { SelectAppend(a, b, v, g); }
    SelectSomething(a, v, g);
    SelectSomething(b, v, g);
    SelectSomething(a + b, v, g);
    if y == [] {
      assert x + y == x;
    } else if x == [] {
      assert x + y == y;
    } else {
      SummariseAppend(x, y, v);
    }
  }

  lemma MergedKeys(a: seq<Sale>, b: seq<Sale>, v: View)
    ensures MergeDays(OnePassDays(a, v), OnePassDays(b, v)).Keys == OnePassDays(a + b, v).Keys
  {
    GroupsAppend(a, b, v);
  }

  /** Upserting the group-by of a batch gives the group-by of everything scanned so far. */
  lemma DaysStream(a: seq<Sale>, b: seq<Sale>, v: View)
    ensures MergeDays(OnePassDays(a, v), OnePassDays(b, v)) == OnePassDays(a + b, v)
  {
    var streamed, whole := MergeDays(OnePassDays(a, v), OnePassDays(b, v)), OnePassDays(a + b, v);
    assert streamed.Keys == whole.Keys by { MergedKeys(a, b, v); }
    assert forall g :: g in whole ==> streamed[g] == whole[g] by {
      forall g | g in whole ensures streamed[g] == whole[g] { DayStreams(a, b, v, g); }
    }
  }

  // ---------------------------------------------------------------- one pass: observed phones

  predicate Observes(s: Sale, v: View, c: Text, p: Text)
  {
    Named(s, v) && s.client.value == c && s.phone == Some(p)
  }

  /** For every phone of a client, the latest day on which the rows show it. */
  function Latest(rows: seq<Sale>, v: View, c: Text): map<Text, Day>
  {
    if rows == [] then map[] else
      MaxMerge(Latest(rows[..|rows| - 1], v, c), Sighting(rows[|rows| - 1], v, c))
  }

  /** Latest is the true latest day: some row shows the phone on it, and no row shows it later. */
  lemma {:induction false} LatestIsLatest(rows: seq<Sale>, v: View, c: Text)
    ensures forall p :: p in Latest(rows, v, c) ==>
      exists s :: s in rows && Observes(s, v, c, p) && s.day == Latest(rows, v, c)[p]
    ensures forall s, p :: s in rows && Observes(s, v, c, p) ==>
      p in Latest(rows, v, c) && s.day <= Latest(rows, v, c)[p]
  {
    if rows != [] {
      var last := rows[|rows| - 1];
      assert rows == rows[..|rows| - 1] + [last];
      LatestIsLatest(rows[..|rows| - 1], v, c);
      forall p | p in Latest(rows, v, c)
        ensures exists s :: s in rows && Observes(s, v, c, p) && s.day == Latest(rows, v, c)[p]
      {
        var before := Latest(rows[..|rows| - 1], v, c);
        if p in before && before[p] == Latest(rows, v, c)[p] {
          var s :| s in rows[..|rows| - 1] && Observes(s, v, c, p) && s.day == before[p];
          assert s in rows;
        } else {
          assert last in rows && Observes(last, v, c, p);
        }
      }
    }
  }

  /** The ON CONFLICT clause of the phone upsert. */
  function MaxMerge(a: map<Text, Day>, b: map<Text, Day>): map<Text, Day>
  {
    map p | p in a.Keys + b.Keys ::
      if p !in b then a[p] else if p !in a then b[p] else Max(a[p], b[p])
  }

  /** What one row contributes to the phones of a client. */
  function Sighting(s: Sale, v: View, c: Text): map<Text, Day>
  {
    if Named(s, v) && s.client.value == c && s.phone.Some? then map[s.phone.value := s.day] else map[]
  }

  lemma MaxMergeAssociative(a: map<Text, Day>, b: map<Text, Day>, c: map<Text, Day>)
    ensures MaxMerge(MaxMerge(a, b), c) == MaxMerge(a, MaxMerge(b, c))
  {
    forall p | p in a.Keys + b.Keys + c.Keys
      ensures MaxMerge(MaxMerge(a, b), c)[p] == MaxMerge(a, MaxMerge(b, c))[p]
    {
    }
  }

  lemma MaxMergeEmpty(a: map<Text, Day>)
    ensures MaxMerge(a, map[]) == a == MaxMerge(map[], a)
  {
  }

  lemma {:induction false} LatestAppend(a: seq<Sale>, b: seq<Sale>, v: View, c: Text)
    ensures Latest(a + b, v, c) == MaxMerge(Latest(a, v, c), Latest(b, v, c))
  {
    if b == [] {
      assert a + b == a;
      MaxMergeEmpty(Latest(a, v, c));
    } else {
      var front, s := b[..|b| - 1], Sighting(b[|b| - 1], v, c);
      assert (a + b)[..|a + b| - 1] == a + front;
      LatestAppend(a, front, v, c);
      MaxMergeAssociative(Latest(a, v, c), Latest(front, v, c), s);
    }
  }

  /** The order of the trimming query: latest day first, then the phone. */
  predicate Before(m: map<Text, Day>, q: Text, p: Text)
    requires q in m && p in m
  {
    m[q] > m[p] || (m[q] == m[p] && q < p)
  }

  function Ahead(m: map<Text, Day>, p: Text): set<Text>
    requires p in m
  {
    set q | q in m && Before(m, q, p)
  }

  /** DELETE of every row whose row number exceeds ten. */
  function TopTen(m: map<Text, Day>): map<Text, Day>
  {
    map p | p in m && |Ahead(m, p)| < PHONE_LIMIT :: m[p]
  }

  lemma SubsetSize<T>(a: set<T>, b: set<T>)
    requires a <= b
    ensures |a| <= |b|
  {
    assert b == a + (b - a);
  }

  /** When ten phones are ahead of p, ten kept phones are ahead of p. */
  lemma {:induction false} TenKeptAhead(m: map<Text, Day>, p: Text)
    requires p in m && |Ahead(m, p)| >= PHONE_LIMIT
    ensures |Ahead(m, p) * TopTen(m).Keys| >= PHONE_LIMIT
    decreases |Ahead(m, p)|
  {
    if q :| q in Ahead(m, p) && |Ahead(m, q)| >= PHONE_LIMIT {
      assert Ahead(m, q) < Ahead(m, p);
      SubsetSize(Ahead(m, q) + {q}, Ahead(m, p));
      TenKeptAhead(m, q);
      SubsetSize(Ahead(m, q) * TopTen(m).Keys, Ahead(m, p) * TopTen(m).Keys);
    } else {
      assert Ahead(m, p) * TopTen(m).Keys == Ahead(m, p);
    }
  }

  /** If p once lost its place to ten kept phones and its day in the later table is no better, ten
      phones are still ahead of it there, whatever happened to the other rows. */
  lemma StillTenAhead(m: map<Text, Day>, n: map<Text, Day>, p: Text, worst: Text)
    requires worst in m && |Ahead(m, worst)| >= PHONE_LIMIT
    requires forall q :: q in TopTen(m) ==> q in n && n[q] >= m[q]
    requires p in n && (n[p] < m[worst] || (n[p] == m[worst] && worst <= p))
    ensures |Ahead(n, p)| >= PHONE_LIMIT
  {
    TenKeptAhead(m, worst);
    SubsetSize(Ahead(m, worst) * TopTen(m).Keys, Ahead(n, p));
  }

  lemma TrimmedEntry(m: map<Text, Day>, b: map<Text, Day>, p: Text)
    ensures p in MaxMerge(TopTen(m), b) ==>
              p in MaxMerge(m, b) && MaxMerge(TopTen(m), b)[p] <= MaxMerge(m, b)[p]
    ensures p in TopTen(m) || p in b ==> p in MaxMerge(TopTen(m), b)
    ensures p in TopTen(m) || p !in m || (p in b && b[p] >= m[p]) ==>
              (p in MaxMerge(TopTen(m), b) ==> MaxMerge(TopTen(m), b)[p] == MaxMerge(m, b)[p])
    ensures p in MaxMerge(m, b) && (p !in MaxMerge(TopTen(m), b) || MaxMerge(TopTen(m), b)[p] != MaxMerge(m, b)[p]) ==>
              p in m && p !in TopTen(m) && MaxMerge(m, b)[p] == m[p]
  {
    hide Ahead;
  }

  /** A phone that lost its place in the first trim is out at the end either way. */
  lemma ForgottenIsOut(m: map<Text, Day>, b: map<Text, Day>, p: Text)
    requires p in m && p !in TopTen(m) && MaxMerge(m, b)[p] == m[p]
    ensures p !in TopTen(MaxMerge(m, b)) && p !in TopTen(MaxMerge(TopTen(m), b))
  {
    var big, small := MaxMerge(m, b), MaxMerge(TopTen(m), b);
    StillTenAhead(m, big, p, p);
    if p in small {
      TrimmedEntry(m, b, p);
      StillTenAhead(m, small, p, p);
    }
    hide Ahead, MaxMerge;
  }

  /** A phone that is remembered with its day has ten others ahead of it in both tables or in none. */
  lemma RememberedAgrees(m: map<Text, Day>, b: map<Text, Day>, p: Text)
    requires p in MaxMerge(TopTen(m), b) && p in MaxMerge(m, b) && MaxMerge(TopTen(m), b)[p] == MaxMerge(m, b)[p]
    ensures p in TopTen(MaxMerge(m, b)) <==> p in TopTen(MaxMerge(TopTen(m), b))
  {
    var big, small := MaxMerge(m, b), MaxMerge(TopTen(m), b);
    AheadShrinks(m, b, p);
    SubsetSize(Ahead(small, p), Ahead(big, p));
    if q :| q in Ahead(big, p) && q !in Ahead(small, p) {
      TrimmedEntry(m, b, q);
      assert q in m && q !in TopTen(m) && big[q] == m[q];
      StillTenAhead(m, small, p, q);
      StillTenAhead(m, big, p, q);
    } else {
      assert Ahead(small, p) == Ahead(big, p);
    }
    hide Ahead, MaxMerge;
  }

  lemma AheadShrinks(m: map<Text, Day>, b: map<Text, Day>, p: Text)
    requires p in MaxMerge(TopTen(m), b) && p in MaxMerge(m, b) && MaxMerge(TopTen(m), b)[p] == MaxMerge(m, b)[p]
    ensures Ahead(MaxMerge(TopTen(m), b), p) <= Ahead(MaxMerge(m, b), p)
  {
    forall q | q in Ahead(MaxMerge(TopTen(m), b), p)
      ensures q in Ahead(MaxMerge(m, b), p)
    {
      TrimmedEntry(m, b, q);
      hide MaxMerge, TopTen;
    }
  }

  /** Trimming before the next upsert changes nothing in the final ten, although a trimmed phone
      loses its day and may come back with an older one. */
  lemma TrimFirst(m: map<Text, Day>, b: map<Text, Day>)
    ensures TopTen(MaxMerge(TopTen(m), b)) == TopTen(MaxMerge(m, b))
  {
    var big, small := MaxMerge(m, b), MaxMerge(TopTen(m), b);
    forall p
      ensures p in TopTen(big) <==> p in TopTen(small)
      ensures p in TopTen(big) ==> small[p] == big[p]
    {
      TrimmedEntry(m, b, p);
      if p in big && (p !in small || small[p] != big[p]) {
        ForgottenIsOut(m, b, p);
      } else if p in big {
        RememberedAgrees(m, b, p);
      }
      hide MaxMerge, Ahead;
    }
    hide MaxMerge, Ahead;
  }

  function Clients(rows: seq<Sale>, v: View): set<Text>
  {
    set s | s in rows && Named(s, v) :: s.client.value
  }

  /** The phone table of one pass: the ten best of the true latest days of every client. */
  function OnePassPhones(rows: seq<Sale>, v: View): map<Text, map<Text, Day>>
  {
    map c | c in Clients(rows, v) :: TopTen(Latest(rows, v, c))
  }

  /** The upsert of one batch followed by the trim of the clients that the batch touched. */
  function MergePhones(t: map<Text, map<Text, Day>>, rows: seq<Sale>, v: View): map<Text, map<Text, Day>>
  {
    map c | c in t.Keys + Clients(rows, v) ::
      if c in Clients(rows, v)
      then TopTen(MaxMerge(if c in t then t[c] else map[], Latest(rows, v, c)))
      else t[c]
  }

  lemma {:induction false} OnlySeenClients(rows: seq<Sale>, v: View, c: Text)
    ensures Latest(rows, v, c) != map[] ==> c in Clients(rows, v)
  {
    if rows != [] {
      assert rows == rows[..|rows| - 1] + [rows[|rows| - 1]];
      OnlySeenClients(rows[..|rows| - 1], v, c);
    }
  }

  lemma PhonesStream(a: seq<Sale>, b: seq<Sale>, v: View)
    ensures MergePhones(OnePassPhones(a, v), b, v) == OnePassPhones(a + b, v)
  {
    assert Clients(a + b, v) == Clients(a, v) + Clients(b, v);
    forall c | c in Clients(a + b, v)
      ensures MergePhones(OnePassPhones(a, v), b, v)[c] == OnePassPhones(a + b, v)[c]
    {
      PhonesOfClientStream(a, b, v, c);
    }
  }

  lemma PhonesOfClientStream(a: seq<Sale>, b: seq<Sale>, v: View, c: Text)
    requires c in Clients(a, v) + Clients(b, v)
    ensures MergePhones(OnePassPhones(a, v), b, v)[c] == TopTen(Latest(a + b, v, c))
  {
    var before, batch := Latest(a, v, c), Latest(b, v, c);
    assert Latest(a + b, v, c) == MaxMerge(before, batch) by { LatestAppend(a, b, v, c); }
    if c !in Clients(b, v) {
      assert batch == map[] by { OnlySeenClients(b, v, c); }
      MaxMergeEmpty(before);
    } else if c in Clients(a, v) {
      TrimFirst(before, batch);
    } else {
      assert before == map[] by { OnlySeenClients(a, v, c); }
    }
  }
}
