/** Billing a user for a route: a bill with the amount charged when the
    submit_sm is sent, the amount charged when its response comes back, and
    whether the user's submit_sm count is to be decremented. */
module Billing {
  import opened Entities
  import opened Routes

  const SubmitSmBucket := "submit_sm"
  const SubmitSmRespBucket := "submit_sm_resp"
  const DecrementSubmitSmCount := "decrement_submit_sm_count"

  datatype Bill = Bill(submitSm: real, submitSmResp: real, decrementSubmitSmCount: nat)

  /** getAmount(bucket): the bucket's amount, 0 for a bucket the bill does not have. */
  function GetAmount(b: Bill, bucket: string): (amount: real)
    ensures amount != 0.0 ==> bucket == SubmitSmBucket || bucket == SubmitSmRespBucket
  {
    if bucket == SubmitSmBucket then b.submitSm
    else if bucket == SubmitSmRespBucket then b.submitSmResp
    else 0.0
  }

  /** getAction(name): the action's value, 0 for an action the bill does not have. */
  function GetAction(b: Bill, name: string): (action: int)
    ensures action >= 0
    ensures action != 0 ==> name == DecrementSubmitSmCount
  {
    if name == DecrementSubmitSmCount then b.decrementSubmitSmCount else 0
  }

  /** getTotalAmounts(): the sum of the amount buckets. */
  function GetTotalAmounts(b: Bill): (total: real)
    ensures total == GetAmount(b, SubmitSmBucket) + GetAmount(b, SubmitSmRespBucket)
  {
    b.submitSm + b.submitSmResp
  }

  /** Each named bucket and action reads back its own field of the bill. */
  lemma BucketsReadBack(b: Bill)
    ensures GetAmount(b, SubmitSmBucket) == b.submitSm
    ensures GetAmount(b, SubmitSmRespBucket) == b.submitSmResp
    ensures GetAction(b, DecrementSubmitSmCount) == b.decrementSubmitSmCount
  {
    assert |SubmitSmRespBucket| != |SubmitSmBucket|;
  }

  /** The rate is charged only when it is positive and the user's balance is
      limited. With an early decrement percentage p, p percent of it is
      charged on submit_sm and the rest on submit_sm_resp; without one, all of
      it on submit_sm. A limited submit_sm count is decremented by one,
      whatever the rate. */
  function BillFor(rate: real, q: Quotas): (b: Bill)
    requires rate >= 0.0
    ensures GetTotalAmounts(b) == if rate > 0.0 && q.balance.Some? then rate else 0.0
    ensures q.earlyDecrementBalancePercent.None? ==> b.submitSmResp == 0.0
    ensures rate > 0.0 && q.balance.Some? && q.earlyDecrementBalancePercent.Some? ==>
      b.submitSm == rate * q.earlyDecrementBalancePercent.value / 100.0
    ensures GetAction(b, DecrementSubmitSmCount) == if q.submitSmCount.Some? then 1 else 0
  {
    var action := if q.submitSmCount.Some? then 1 else 0;
    if rate > 0.0 && q.balance.Some? then
      match q.earlyDecrementBalancePercent
      case Some(p) =>
        var early := rate * p / 100.0;
        Bill(early, rate - early, action)
      case None => Bill(rate, 0.0, action)
    else Bill(0.0, 0.0, action)
  }

  /** getBillFor(user): anything but a user is a parameter error. */
  function GetBillFor(r: Route, user: Value): (b: Result<Bill, RouteError>)
    requires r.Valid()
    ensures b.Ok? <==> user.VUser?
    ensures b.Err? ==> b.error == InvalidRouteParameter
    ensures b.Ok? ==> GetTotalAmounts(b.value) == if r.rate > 0.0 && user.user.quotas.balance.Some? then r.rate else 0.0
  {
    if user.VUser? then Ok(BillFor(GetRate(r), user.user.quotas)) else Err(InvalidRouteParameter)
  }

  /** MO routes carry no rate, so their bills charge nothing. */
  lemma MORoutesChargeNothing(r: Route, u: User)
    requires r.Valid() && TypeOf(r.kind) == MOType
    ensures GetTotalAmounts(GetBillFor(r, VUser(u)).value) == 0.0
  {
  }

  /** The early decrement split never changes what is charged in total, and
      neither bucket is negative when the percentage is between 0 and 100. */
  lemma SplitPreservesTotal(rate: real, q: Quotas, p: real)
    requires rate >= 0.0 && 0.0 <= p <= 100.0
    ensures
      var b := BillFor(rate, q.(earlyDecrementBalancePercent := Some(p)));
      && GetTotalAmounts(b) == GetTotalAmounts(BillFor(rate, q.(earlyDecrementBalancePercent := None)))
      && b.submitSm >= 0.0 && b.submitSmResp >= 0.0
  {
    if rate > 0.0 && q.balance.Some? {
      var early := rate * p / 100.0;
      assert BillFor(rate, q.(earlyDecrementBalancePercent := Some(p))).submitSmResp == rate - early;
      EarlyShareBounded(rate, p);
    }
  }

  lemma EarlyShareBounded(rate: real, p: real)
    requires rate >= 0.0 && 0.0 <= p <= 100.0
    ensures 0.0 <= rate * p / 100.0 <= rate
  {
    assert rate * p <= rate * 100.0 by {
      assert rate * (100.0 - p) >= 0.0;
    }
  }

  /** A quota a test or the credential store sets on a user. */
  datatype QuotaUpdate =
    | SetBalance(balance: Option<real>)
    | SetEarlyDecrementBalancePercent(percent: Option<real>)
    | SetSubmitSmCount(count: Option<int>)

  /** The quotas after the update: the named quota replaced, the others kept. */
  function ApplyUpdate(q: Quotas, u: QuotaUpdate): (r: Quotas)
    ensures u.SetBalance? ==> r.balance == u.balance
    ensures u.SetEarlyDecrementBalancePercent? ==> r.earlyDecrementBalancePercent == u.percent
    ensures u.SetSubmitSmCount? ==> r.submitSmCount == u.count
    ensures !u.SetBalance? ==> r.balance == q.balance
    ensures !u.SetEarlyDecrementBalancePercent? ==> r.earlyDecrementBalancePercent == q.earlyDecrementBalancePercent
    ensures !u.SetSubmitSmCount? ==> r.submitSmCount == q.submitSmCount
  {
    match u
    case SetBalance(v) => q.(balance := v)
    case SetEarlyDecrementBalancePercent(v) => q.(earlyDecrementBalancePercent := v)
    case SetSubmitSmCount(v) => q.(submitSmCount := v)
  }

  /** A user's MT messaging credential, whose quotas are set in place. */
  class MtCredential {
    var quotas: Quotas

    constructor ()
      ensures quotas == UnlimitedQuotas
    {
      quotas := UnlimitedQuotas;
    }

    /** setQuota(name, value): changes that quota and no other. */
    method SetQuota(u: QuotaUpdate)
      modifies this
      ensures quotas == ApplyUpdate(old(quotas), u)
    {
      quotas := ApplyUpdate(quotas, u);
    }
  }
}
