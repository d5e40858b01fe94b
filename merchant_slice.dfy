/** The merchant slice (src/features/merchant/merchantSlice.ts): purchases, the
    contribution rate and notifications, with the reducers `approvePurchase` and
    `setContributionRate`. The rate is a JavaScript number and is only carried. */
module MerchantSlice {
  import opened Optional
  import opened SliceRecords

  class MerchantStore {
    var purchases: seq<Purchase>
    var contributionRate: real
    var notifications: seq<Notification>

    constructor (purchases0: seq<Purchase>, rate0: real, notifications0: seq<Notification>)
      ensures purchases == purchases0 && contributionRate == rate0 && notifications == notifications0
    {
      purchases, contributionRate, notifications := purchases0, rate0, notifications0;
    }

    /** `approvePurchase`: the first purchase with `id` is marked approved in
        place; the rate, the notifications and the other purchases are untouched. */
    method ApprovePurchase(id: int)
      modifies this
      ensures purchases == ApproveFirst(old(purchases), id)
      ensures NoneUnapproved(old(purchases), purchases)
      ensures contributionRate == old(contributionRate) && notifications == old(notifications)
    {
      var found := FindPurchase(purchases, id);
      if found.Some? {
        var i := found.value;
        purchases := purchases[i := purchases[i].(status := Approved)];
      }
      assert forall j :: 0 <= j < |old(purchases)| ==> purchases[j] == ApproveFirst(old(purchases), id)[j];
    }

    /** `setContributionRate`: the rate becomes exactly `rate` (so the last write
        wins) and nothing else changes. */
    method SetContributionRate(rate: real)
      modifies this
      ensures contributionRate == rate
      ensures purchases == old(purchases) && notifications == old(notifications)
      ensures NoneUnapproved(old(purchases), purchases)
    {
      contributionRate := rate;
    }
  }
}
