/** The decision whether the stored sales may be evaluated, and up to which day. It is a snapshot of
    stored rows and never a statement about completeness. */
module Source {
  import opened Prelude
  import opened Projection

  datatype Note =
    | CompletenessUnknown | NotClosed | ImportPending | NoScopedSales | ScopeEmpty | ScopeUnavailable
    | PrecedesPublished | ScopeChanged

  /** `revision` and `upper` also make up the evidence fingerprint, together with the policy. */
  datatype SourceDecision = SourceDecision(
    policy: nat, requested: Day, closed: Day, effective: Option<Day>, revision: nat, upper: nat,
    timezone: Text, allowed: bool, notes: seq<Note>)

  /** What is read of the scope when no scope could be loaded. */
  const UNKNOWN_SCOPE := Scope(0, Some(0), Some({}), true)

  function Resolve(policy: nat, requested: Day, closed: Day, revision: nat, upper: nat, timezone: Text,
                   hasSales: bool, pending: bool): SourceDecision
  {
    var allowed := hasSales && upper > 0 && !pending;
    SourceDecision(policy, requested, closed, if allowed then Some(Min(requested, closed)) else None,
      revision, upper, timezone, allowed,
      [CompletenessUnknown]
      + (if requested > closed then [NotClosed] else [])
      + (if pending then [ImportPending] else [])
      + (if !hasSales || upper == 0 then [NoScopedSales] else []))
  }

  /** The evidence gathered for a request; `scope` is None when the client directory is unavailable. */
  function Context(policy: nat, sales: seq<Sale>, revision: nat, upper: nat, pending: bool,
                   requested: Day, closed: Day, timezone: Text, scope: Option<Scope>): SourceDecision
  {
    var known := !pending && scope.Some?;
    var present := known && exists s :: s in sales && Named(s, View(Min(requested, closed), scope.value));
    var decision := Resolve(policy, requested, closed, revision, upper, timezone, present, pending);
    if pending || (known && present && scope.value.clients != Some({})) then decision
    else
      decision.(allowed := false, effective := None, notes := decision.notes +
        [if !known then ScopeUnavailable else if scope.value.clients == Some({}) then ScopeEmpty else NoScopedSales])
  }

  function ScopeInUse(pending: bool, scope: Option<Scope>): Scope
  {
    if !pending && scope.Some? then scope.value else UNKNOWN_SCOPE
  }

  /** A run may start only on a closed day, without pending imports, and over existing sales of a known,
      non-empty scope. */
  lemma AllowedMeans(policy: nat, sales: seq<Sale>, revision: nat, upper: nat, pending: bool,
                     requested: Day, closed: Day, timezone: Text, scope: Option<Scope>)
    ensures var d := Context(policy, sales, revision, upper, pending, requested, closed, timezone, scope);
      && (d.allowed <==>
            && !pending && upper > 0 && scope.Some? && scope.value.clients != Some({})
            && exists s :: s in sales && Named(s, View(Min(requested, closed), scope.value)))
      && (d.effective.Some? <==> d.allowed)
      && (d.allowed ==> d.effective.value <= requested && d.effective.value <= closed)
  {
  }
}
