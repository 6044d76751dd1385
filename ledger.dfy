/** The simulated ledger that each payment gateway keeps: transaction id to
    `{status, amount}`, where `amount` is what is left to refund. The two gateways
    run the same checks and differ only in the constants of their `Policy`. */
module Ledger {
  import opened Optional

  datatype Entry = Entry(status: string, amount: real)

  /** The provider-specific constants of a gateway. */
  datatype Policy = Policy(
    ceiling: real,
    limitError: string,
    notFoundError: string,
    exceedsError: string,
    completedStatus: string,
    refundedStatus: string,
    notFoundStatus: string)

  const InvalidAmount := "Invalid amount"

  /** What a well-formed ledger looks like: every entry carries one of the two
      statuses the gateway writes and a remaining amount that is not negative. */
  ghost predicate WellFormed(p: Policy, ledger: map<string, Entry>) {
    && p.completedStatus != "" && p.refundedStatus != ""
    && forall id :: id in ledger ==>
      (ledger[id].status == p.completedStatus || ledger[id].status == p.refundedStatus)
      && ledger[id].amount >= 0.0
  }

  /** `charge`: the amount is rejected when not positive, then when above the
      provider's ceiling; otherwise the ledger gains the entry `{completed, amount}`
      under the new id and nothing else changes. */
  function Charge(p: Policy, ledger: map<string, Entry>, id: string, amount: real)
    : (r: (Option<string>, map<string, Entry>))
    ensures r.0.Some? <==> amount <= 0.0 || amount > p.ceiling
    ensures amount <= 0.0 ==> r.0 == Some(InvalidAmount)
    ensures 0.0 < amount && amount > p.ceiling ==> r.0 == Some(p.limitError)
    ensures r.0.Some? ==> r.1 == ledger
    ensures r.0.None? ==> (r.1.Keys == ledger.Keys + {id}
      && r.1[id] == Entry(p.completedStatus, amount)
      && (forall k :: k in ledger && k != id ==> r.1[k] == ledger[k]))
    ensures WellFormed(p, ledger) ==> WellFormed(p, r.1)
  {
    if amount <= 0.0 then (Some(InvalidAmount), ledger)
    else if amount > p.ceiling then (Some(p.limitError), ledger)
    else (None, ledger[id := Entry(p.completedStatus, amount)])
  }

  /** `refund`: an unknown id is rejected first, then an amount above what is left;
      otherwise the entry is marked refunded and its remaining amount drops by
      exactly `amount` (there is no lower bound on `amount`). */
  function Refund(p: Policy, ledger: map<string, Entry>, id: string, amount: real)
    : (r: (Option<string>, map<string, Entry>))
    ensures r.0.None? <==> id in ledger && amount <= ledger[id].amount
    ensures id !in ledger ==> r.0 == Some(p.notFoundError)
    ensures id in ledger && amount > ledger[id].amount ==> r.0 == Some(p.exceedsError)
    ensures r.0.Some? ==> r.1 == ledger
    ensures r.0.None? ==> (r.1.Keys == ledger.Keys
      && r.1[id] == Entry(p.refundedStatus, ledger[id].amount - amount)
      && r.1[id].amount >= 0.0
      && (forall k :: k in ledger && k != id ==> r.1[k] == ledger[k]))
    ensures WellFormed(p, ledger) ==> WellFormed(p, r.1)
  {
    if id !in ledger then (Some(p.notFoundError), ledger)
    else if amount > ledger[id].amount then (Some(p.exceedsError), ledger)
    else (None, ledger[id := Entry(p.refundedStatus, ledger[id].amount - amount)])
  }

  /** `getStatus`: the stored status, or the provider's not-found status when the id
      is unknown (or its status is the empty string). It never fails. */
  function Status(p: Policy, ledger: map<string, Entry>, id: string): (s: string)
    ensures id !in ledger ==> s == p.notFoundStatus
    ensures WellFormed(p, ledger) && id in ledger ==> s == ledger[id].status
  {
    if id in ledger && ledger[id].status != "" then ledger[id].status else p.notFoundStatus
  }

  /** Round trip: a successful charge is immediately visible with the completed
      status under the id it was stored at. */
  lemma ChargeThenStatus(p: Policy, ledger: map<string, Entry>, id: string, amount: real)
    requires p.completedStatus != "" && p.refundedStatus != ""
    requires Charge(p, ledger, id, amount).0.None?
    ensures Status(p, Charge(p, ledger, id, amount).1, id) == p.completedStatus
  {
  }

  /** A charge followed by a refund of its whole amount leaves the entry refunded
      with nothing left; a second refund of any positive amount is then rejected. */
  lemma {:induction false} FullRefundExhausts(p: Policy, ledger: map<string, Entry>, id: string, amount: real, more: real)
    requires Charge(p, ledger, id, amount).0.None?
    requires more > 0.0
    ensures var charged := Charge(p, ledger, id, amount).1;
      var (err, refunded) := Refund(p, charged, id, amount);
      err.None? && refunded[id] == Entry(p.refundedStatus, 0.0)
      && Refund(p, refunded, id, more) == (Some(p.exceedsError), refunded)
  {
    var charged := Charge(p, ledger, id, amount).1;
    assert charged[id].amount == amount;
    var refunded := Refund(p, charged, id, amount).1;
    assert refunded[id].amount == 0.0;
  }
}
