/**
 * The entitlement ledger and the gate built on it (src/lib/access.ts).
 *
 * The store is two tables keyed by anonymous id: `free_sims`, a `used` flag per id, and
 * `anon_purchases`, a `simulations_remaining` balance per id. `CheckAccess` is the read-only
 * decision over them; `PaidSimDecrement` is what `decrementPaidSim` does to the balances, and
 * `Ledger.DecrementPaidSim` performs it on the store in place. Whether a store is configured at
 * all (`hasSupabase()`) is the ledger's `configured` flag.
 */
module Access {
  import opened Wrappers
  import Js

  /** Why the gate says no; `Code` is the string the source returns in `reason`. */
  datatype Reason = FreeUsed | NoCredits {
    function Code(): string {
      match this
      case FreeUsed => "free_used"
      case NoCredits => "no_credits"
    }
  }

  /** The object `checkAccess` resolves to; `reason` is absent when the caller may simulate. */
  datatype AccessInfo = AccessInfo(
    canSimulate: bool,
    hasFreeSim: bool,
    simulationsRemaining: Option<int>,
    hasPaid: bool,
    reason: Option<Reason>)

  /** The answer for an unconfigured store or an unknown caller: allowed, on the free tier. */
  const OPEN_ACCESS: AccessInfo := AccessInfo(true, true, None, false, None)

  /** A snapshot of the store: whether it is configured, and its two tables. */
  datatype Store = Store(configured: bool, freeSims: map<string, bool>, purchases: map<string, int>)

  /** `freeRow?.used === true`: the caller has a free-sim row whose flag is set. */
  predicate FreeSimUsed(freeSims: map<string, bool>, id: string) {
    id in freeSims && freeSims[id]
  }

  /** Every balance in the purchases table is at least zero. */
  predicate NonNegative(purchases: map<string, int>) {
    forall k :: k in purchases ==> purchases[k] >= 0
  }

  /**
   * `checkAccess(anonymousId)`. With a configured store and a truthy id: the caller may simulate
   * exactly when they have no purchase row and an unused free sim, or a purchase row with a
   * positive balance; a reason is given exactly when they may not (`free_used` without a
   * purchase row, `no_credits` with an exhausted one, even if the free sim is unused).
   */
  function CheckAccess(
    configured: bool, anonymousId: Option<string>,
    freeSims: map<string, bool>, purchases: map<string, int>): (r: AccessInfo)
    ensures !configured || !Js.Truthy(anonymousId) ==> r == OPEN_ACCESS
    ensures configured && Js.Truthy(anonymousId) ==>
      var id := anonymousId.value;
      && (r.canSimulate <==> (id !in purchases && !FreeSimUsed(freeSims, id)) || (id in purchases && purchases[id] > 0))
      && (r.reason.None? <==> r.canSimulate)
      && (r.reason == Some(FreeUsed) <==> id !in purchases && FreeSimUsed(freeSims, id))
      && (r.reason == Some(NoCredits) <==> id in purchases && purchases[id] <= 0)
      && (r.hasPaid <==> id in purchases)
      && (r.hasFreeSim <==> r.canSimulate && !FreeSimUsed(freeSims, id))
      && r.simulationsRemaining == (if id in purchases then Some(Js.MathMax(0, purchases[id])) else None)
  {
    if !configured || !Js.Truthy(anonymousId) then OPEN_ACCESS
    else
      var id := anonymousId.value;
      var freeUsed := FreeSimUsed(freeSims, id);
      var hasPaid := id in purchases;
      var remaining := if hasPaid then purchases[id] else 0;
      if freeUsed && !hasPaid then AccessInfo(false, false, None, false, Some(FreeUsed))
      else if hasPaid && remaining <= 0 then AccessInfo(false, false, Some(0), true, Some(NoCredits))
      else AccessInfo(true, !freeUsed, if hasPaid then Some(remaining) else None, hasPaid, None)
  }

  /** What `decrementPaidSim` reports, with the purchases table it leaves behind. */
  datatype Decrement = Decrement(ok: bool, purchases: map<string, int>)

  /**
   * `decrementPaidSim(anonymousId)`: without a store it succeeds and changes nothing; it fails,
   * changing nothing, when the caller has no purchase row or no credit left; otherwise the
   * caller's balance drops by exactly one, stays at least zero, and no other row changes.
   */
  function PaidSimDecrement(configured: bool, purchases: map<string, int>, id: string): (d: Decrement)
    ensures !configured ==> d.ok
    ensures configured ==> (d.ok <==> id in purchases && purchases[id] > 0)
    ensures !d.ok || !configured ==> d.purchases == purchases
    ensures d.purchases.Keys == purchases.Keys
    ensures forall k :: k in purchases && k != id ==> d.purchases[k] == purchases[k]
    ensures configured && d.ok ==> d.purchases[id] == purchases[id] - 1 >= 0
    ensures configured && d.ok ==> d.purchases == purchases[id := purchases[id] - 1]
    ensures NonNegative(purchases) ==> NonNegative(d.purchases)
  {
    if !configured then Decrement(true, purchases)
    else if id !in purchases || purchases[id] <= 0 then Decrement(false, purchases)
    else Decrement(true, purchases[id := Js.MathMax(0, purchases[id] - 1)])
  }

  /** For a paying caller the decrement succeeds exactly when the gate lets them simulate. */
  lemma DecrementAgreesWithGate(
    configured: bool, id: string, freeSims: map<string, bool>, purchases: map<string, int>)
    requires configured && id != ""
    requires CheckAccess(configured, Some(id), freeSims, purchases).hasPaid
    ensures PaidSimDecrement(configured, purchases, id).ok <==> CheckAccess(configured, Some(id), freeSims, purchases).canSimulate
  {
  }

  /**
   * After a successful decrement the gate reports one credit fewer, and it shuts with
   * `no_credits` exactly when that was the last credit.
   */
  lemma DecrementConsumesOneCredit(
    id: string, freeSims: map<string, bool>, purchases: map<string, int>)
    requires id != "" && id in purchases && purchases[id] > 0
    ensures var after := CheckAccess(true, Some(id), freeSims, PaidSimDecrement(true, purchases, id).purchases);
      && after.simulationsRemaining == Some(purchases[id] - 1)
      && (after.canSimulate <==> purchases[id] > 1)
      && (after.reason == Some(NoCredits) <==> purchases[id] == 1)
  {
  }

  /** The balances after `k` decrement attempts in a row on a configured store. */
  function DecrementTimes(purchases: map<string, int>, id: string, k: nat): (p: map<string, int>)
    ensures p.Keys == purchases.Keys
  {
    if k == 0 then purchases else PaidSimDecrement(true, DecrementTimes(purchases, id, k - 1), id).purchases
  }

  /** How many of `k` decrement attempts in a row on a configured store succeed. */
  function SuccessfulDecrements(purchases: map<string, int>, id: string, k: nat): (n: nat)
    ensures n <= k
  {
    if k == 0 then 0
    else
      SuccessfulDecrements(purchases, id, k - 1)
      + (if PaidSimDecrement(true, DecrementTimes(purchases, id, k - 1), id).ok then 1 else 0)
  }

  /**
   * A purchase row with balance `b >= 0` pays for exactly `b` sessions: of `k` attempts the
   * first `min(k, b)` succeed and the balance ends at `b - min(k, b)`.
   */
  lemma {:induction false} BalanceServesExactlyThatMany(purchases: map<string, int>, id: string, k: nat)
    requires id in purchases && purchases[id] >= 0
    ensures var used := if k <= purchases[id] then k else purchases[id];
      && SuccessfulDecrements(purchases, id, k) == used
      && DecrementTimes(purchases, id, k)[id] == purchases[id] - used
  {
    if k > 0 {
      BalanceServesExactlyThatMany(purchases, id, k - 1);
    }
  }

  /** The store: whether it is configured, and its two tables. */
  class Ledger {
    const configured: bool
    var freeSims: map<string, bool>
    var anonPurchases: map<string, int>

    constructor(configured: bool, freeSims: map<string, bool>, anonPurchases: map<string, int>)
      ensures this.configured == configured
      ensures this.freeSims == freeSims && this.anonPurchases == anonPurchases
    {
      this.configured := configured;
      this.freeSims := freeSims;
      this.anonPurchases := anonPurchases;
    }

    /** The current contents of the store, as a value. */
    function State(): Store
      reads this
    {
      Store(configured, freeSims, anonPurchases)
    }

    /**
     * `decrementPaidSim(anonymousId)`: reads the caller's row, then writes the lowered balance
     * back (as one step; the source's read and write are separate requests).
     */
    method DecrementPaidSim(anonymousId: string) returns (ok: bool)
      modifies this
      ensures ok == PaidSimDecrement(configured, old(anonPurchases), anonymousId).ok
      ensures anonPurchases == PaidSimDecrement(configured, old(anonPurchases), anonymousId).purchases
      ensures freeSims == old(freeSims)
    {
      if !configured {
        return true;
      }
      if anonymousId !in anonPurchases || anonPurchases[anonymousId] <= 0 {
        return false;
      }
      var remaining := anonPurchases[anonymousId];
      anonPurchases := anonPurchases[anonymousId := Js.MathMax(0, remaining - 1)];
      return true;
    }
  }
}
