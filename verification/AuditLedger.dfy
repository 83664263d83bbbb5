/** The durable documents of the exact-HEAD audit: claims and dispositions per issue, money per month. */
module AuditLedger {
  import opened Common

  type Month = int
  type Money = int     // millionths of a dollar
  type Time = int

  /** Identity of one paid audit; the repository is fixed. */
  datatype Key = Key(issue: int, sha: int)

  datatype Verdict = Pass | Rework | HumanRequired
  datatype ClaimState = Claimed | Completed

  /** `cost` is the recorded telemetry's estimated cost, once telemetry exists. */
  datatype Claim = Claim(state: ClaimState, month: Month, claimedAt: Time, lease: int,
                         verdict: Option<Verdict>, cost: Option<Money>)

  datatype Action = ReworkHandoff | PassCheckpoint | HumanRequiredAction | DispatchStarted
  datatype Disposition = Disposition(action: Action, attempt: int)

  predicate Terminal(d: Disposition) { !d.action.DispatchStarted? }

  datatype Ledger = Ledger(month: Month, claims: map<Key, Claim>, dispositions: map<Key, Disposition>)

  datatype Reservation = Reservation(ceiling: Money, accounted: Money, settled: bool)
  datatype Budget = Budget(spent: Money, reservations: map<Key, Reservation>)

  function ClaimsOf(stored: Option<Ledger>): map<Key, Claim> {
    if stored.Some? then stored.value.claims else map[]
  }

  /** Where a claim can get to: it is claimed, then given a result, then completed, and never goes back. */
  predicate ClaimGoesOn(a: Claim, b: Claim) {
    || a == b
    || (a.state == Claimed && b.state == Completed)
    || (a.state == Claimed && a.cost.None? && b.cost.Some? && b == a.(verdict := b.verdict, cost := b.cost))
  }

  predicate ClaimsGoOn(a: map<Key, Claim>, b: map<Key, Claim>) {
    forall k | k in a :: k in b && ClaimGoesOn(a[k], b[k])
  }
}
