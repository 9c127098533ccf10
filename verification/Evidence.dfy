/** The cutoff that a list of imports allows: only complete, clean imports with declared periods count, and
    only days that all of them declare. */
module Evidence {
  import opened Prelude

  const EVIDENCE_LIMIT := 1000

  datatype Method = DeclaredPeriod | InvalidPeriod | ExtractionFailed | Undeclared

  datatype Import = Import(completed: bool, errorRows: nat, imported: bool, how: Method,
                           declaredStart: Option<Day>, declaredEnd: Option<Day>,
                           observedStart: Option<Day>, observedEnd: Option<Day>)

  datatype Reason =
    | NoEvidence | TooManyImports | PendingOrFailed | InvalidDeclared | PeriodMissing | ObservedOutside
    | NoCommonPeriod | RequestOutside

  datatype Coverage = Unhealthy | Declared | Unknown

  datatype Decision = Decision(accepted: Option<Day>, effective: Option<Day>, allowed: bool, coverage: Coverage,
                               reasons: seq<Reason>)

  /** Nothing about this import speaks against its declared period. */
  predicate Clean(e: Import)
  {
    && e.completed && e.errorRows == 0 && e.imported && e.how == DeclaredPeriod
    && e.declaredStart.Some? && e.declaredEnd.Some? && e.declaredStart.value <= e.declaredEnd.value
    && (e.observedStart.Some? ==> e.declaredStart.value <= e.observedStart.value)
    && (e.observedEnd.Some? ==> e.observedEnd.value <= e.declaredEnd.value)
  }

  /** What one import puts on the list. */
  function Objections(e: Import): seq<Reason>
  {
    (if !e.completed || e.errorRows > 0 || !e.imported then [PendingOrFailed] else [])
    + (if e.how == InvalidPeriod || e.how == ExtractionFailed then [InvalidDeclared]
       else if e.how != DeclaredPeriod || e.declaredStart.None? || e.declaredEnd.None? then [PeriodMissing] else [])
    + (if e.declaredStart.None? || e.declaredEnd.None? then [] else
         (if e.declaredStart.value > e.declaredEnd.value then [InvalidDeclared] else [])
         + (if (e.observedStart.Some? && e.observedStart.value < e.declaredStart.value)
               || (e.observedEnd.Some? && e.observedEnd.value > e.declaredEnd.value) then [ObservedOutside] else []))
  }

  /** Objections that mean the data is broken, not merely undeclared. */
  predicate Broken(e: Import)
  {
    exists r :: r in Objections(e) && r != PeriodMissing
  }

  lemma CleanIs(e: Import)
    ensures Clean(e) <==> Objections(e) == []
  {
  }

  predicate AllClean(evidence: seq<Import>)
  {
    forall i :: 0 <= i < |evidence| ==> Clean(evidence[i])
  }

  /** Every import declares the day. */
  predicate Covers(evidence: seq<Import>, d: Day)
  {
    forall i :: 0 <= i < |evidence| ==> CoversOne(evidence[i], d)
  }

  predicate CoversOne(e: Import, d: Day)
  {
    e.declaredStart.Some? && e.declaredEnd.Some? && e.declaredStart.value <= d <= e.declaredEnd.value
  }

  /** A day that the request may be answered for. */
  predicate Answers(evidence: seq<Import>, requested: Day, closed: Day, d: Day)
  {
    Covers(evidence, d) && d <= requested && d <= closed
  }

  /** The last start and the first end of the declared periods. */
  method CommonPeriod(evidence: seq<Import>) returns (start: Day, end: Day)
    requires evidence != [] && AllClean(evidence)
    ensures forall d: Day :: Covers(evidence, d) <==> start <= d <= end
    ensures exists i :: 0 <= i < |evidence| && evidence[i].declaredEnd == Some(end)
  {
    assert Clean(evidence[0]);
    start, end := evidence[0].declaredStart.value, evidence[0].declaredEnd.value;
    var i := 1;
    assert forall d: Day :: Covers(evidence[..1], d) <==> CoversOne(evidence[0], d) by {
      CoversMore(evidence, 0);
    }
    while i < |evidence|
      invariant 1 <= i <= |evidence|
      invariant forall d: Day :: Covers(evidence[..i], d) <==> start <= d <= end
      invariant exists j :: 0 <= j < i && evidence[j].declaredEnd == Some(end)
    {
      var e := evidence[i];
      assert Clean(e);
      CoversMore(evidence, i);
      ghost var longer := evidence[..i + 1];
      forall d: Day
        ensures Covers(longer, d) <==> Max(start, e.declaredStart.value) <= d <= Min(end, e.declaredEnd.value)
      {
        assert Covers(evidence[..i], d) <==> start <= d <= end;
      }
      start := Max(start, e.declaredStart.value);
      end := Min(end, e.declaredEnd.value);
      i := i + 1;
    }
    assert evidence[..i] == evidence;
  }

  lemma CoversMore(evidence: seq<Import>, i: nat)
    requires i < |evidence|
    ensures forall d: Day :: Covers(evidence[..i + 1], d) <==> Covers(evidence[..i], d) && CoversOne(evidence[i], d)
  {
    forall d: Day
      ensures Covers(evidence[..i + 1], d) <==> Covers(evidence[..i], d) && CoversOne(evidence[i], d)
    {
      assert forall j :: 0 <= j < i ==> evidence[..i + 1][j] == evidence[..i][j];
      assert evidence[..i + 1][i] == evidence[i];
    }
  }

  /** The request is allowed exactly when the list is neither empty nor too long, every import is clean, and some
      day up to the request and the last closed day is declared by all of them; the cutoff is the latest one. */
  method ResolveSource(requested: Day, evidence: seq<Import>, closed: Day) returns (d: Decision)
    ensures d.allowed <==>
      0 < |evidence| <= EVIDENCE_LIMIT && AllClean(evidence) && exists day: Day :: Answers(evidence, requested, closed, day)
    ensures d.allowed <==> d.effective.Some?
    ensures d.allowed ==> Answers(evidence, requested, closed, d.effective.value)
    ensures d.allowed ==> forall day: Day :: Answers(evidence, requested, closed, day) ==> day <= d.effective.value
    ensures d.coverage == Unhealthy <==> exists i :: 0 <= i < |evidence| && Broken(evidence[i])
    ensures d.coverage == Unhealthy ==> !d.allowed
  {
    var reasons: seq<Reason> := [];
    var unhealthy := false;
    if evidence == [] {
      reasons := reasons + [NoEvidence];
    }
    if |evidence| > EVIDENCE_LIMIT {
      reasons := reasons + [TooManyImports];
    }
    hide Clean, Objections;
    var i := 0;
    while i < |evidence|
      invariant 0 <= i <= |evidence|
      invariant reasons == [] <==> 0 < |evidence| <= EVIDENCE_LIMIT && AllClean(evidence[..i])
      invariant unhealthy <==> exists j :: 0 <= j < i && Broken(evidence[j])
    {
      var objections := Objections(evidence[i]);
      CleanIs(evidence[i]);
      assert AllClean(evidence[..i + 1]) <==> AllClean(evidence[..i]) && Clean(evidence[i]) by {
        assert forall j :: 0 <= j < i ==> evidence[..i + 1][j] == evidence[..i][j];
        assert evidence[..i + 1][i] == evidence[i];
      }
      reasons := reasons + objections;
      if exists r :: r in objections && r != PeriodMissing {
        unhealthy := true;
      }
      i := i + 1;
    }
    assert evidence[..i] == evidence;
    BrokenIsNotClean(evidence);
    if reasons != [] {
      return Decision(None, None, false, if unhealthy then Unhealthy else Unknown, reasons);
    }
    var start, end := CommonPeriod(evidence);
    hide AllClean, Broken;
    var latest := Min(Min(requested, closed), end);
    assert forall day: Day :: Answers(evidence, requested, closed, day) <==> start <= day <= latest;
    assert (exists day: Day :: Answers(evidence, requested, closed, day)) <==> start <= latest by {
      if start <= latest {
        assert Answers(evidence, requested, closed, latest);
      }
    }
    if start > end {
      return Decision(None, None, false, Unknown, [NoCommonPeriod]);
    }
    if latest < start {
      return Decision(None, None, false, Unknown, [RequestOutside]);
    }
    d := Decision(Some(end), Some(latest), true, Declared, []);
  }

  lemma BrokenIsNotClean(evidence: seq<Import>)
    ensures (exists i :: 0 <= i < |evidence| && Broken(evidence[i])) ==> !AllClean(evidence)
  {
    if i :| 0 <= i < |evidence| && Broken(evidence[i]) {
      CleanIs(evidence[i]);
      hide Clean, Objections;
    }
  }
}
