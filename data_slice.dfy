/** The shared data slice (src/features/data/dataSlice.ts): users, merchants,
    notifications, points and purchases, with the reducers `approvePurchase`,
    `deleteUser` and `deleteMerchant`. The fixture contents of the initial state
    are not modelled. */
module DataSlice {
  import opened Optional
  import opened Seqs
  import opened SliceRecords

  datatype User = User(id: int, name: string, email: string)

  datatype Merchant = Merchant(id: int, name: string, email: string)

  datatype Points = Points(total: int, pending: int, available: int)

  function UserIdIsNot(id: int): User -> bool
  {
    (u: User) => u.id != id
  }

  function MerchantIdIsNot(id: int): Merchant -> bool
  {
    (m: Merchant) => m.id != id
  }

  /** `users.filter(u => u.id !== id)`: no user keeps that id, every other user
      stays with as many copies as before, in the same relative order. */
  function WithoutUser(users: seq<User>, id: int): (r: seq<User>)
    ensures forall u :: u in r ==> u.id != id && u in users
    ensures forall u :: u in users && u.id != id ==> u in r
    ensures IsSubsequence(r, users)
    ensures forall u :: multiset(r)[u] == if u.id != id then multiset(users)[u] else 0
  {
    FilterIsSubsequence(users, UserIdIsNot(id));
    FilterMultiset(users, UserIdIsNot(id));
    Filter(users, UserIdIsNot(id))
  }

  /** `merchants.filter(m => m.id !== id)`, with the same guarantees. */
  function WithoutMerchant(merchants: seq<Merchant>, id: int): (r: seq<Merchant>)
    ensures forall m :: m in r ==> m.id != id && m in merchants
    ensures forall m :: m in merchants && m.id != id ==> m in r
    ensures IsSubsequence(r, merchants)
    ensures forall m :: multiset(r)[m] == if m.id != id then multiset(merchants)[m] else 0
  {
    FilterIsSubsequence(merchants, MerchantIdIsNot(id));
    FilterMultiset(merchants, MerchantIdIsNot(id));
    Filter(merchants, MerchantIdIsNot(id))
  }

  /** Deleting an id nobody has leaves the list as it was. */
  lemma DeleteUnknownUser(users: seq<User>, id: int)
    requires forall u :: u in users ==> u.id != id
    ensures WithoutUser(users, id) == users
  {
    FilterAll(users, UserIdIsNot(id));
  }

  /** Deleting twice is deleting once. */
  lemma DeleteUserIdempotent(users: seq<User>, id: int)
    ensures WithoutUser(WithoutUser(users, id), id) == WithoutUser(users, id)
  {
    DeleteUnknownUser(WithoutUser(users, id), id);
  }

  class DataStore {
    var users: seq<User>
    var merchants: seq<Merchant>
    var notifications: seq<Notification>
    var points: Points
    var purchases: seq<Purchase>

    constructor (users0: seq<User>, merchants0: seq<Merchant>, notifications0: seq<Notification>,
                 points0: Points, purchases0: seq<Purchase>)
      ensures users == users0 && merchants == merchants0 && notifications == notifications0
      ensures points == points0 && purchases == purchases0
    {
      users, merchants, notifications := users0, merchants0, notifications0;
      points, purchases := points0, purchases0;
    }

    /** `approvePurchase`: find the first purchase with `id` and set its status in
        place; every other part of the state is untouched. */
    method ApprovePurchase(id: int)
      modifies this
      ensures purchases == ApproveFirst(old(purchases), id)
      ensures NoneUnapproved(old(purchases), purchases)
      ensures users == old(users) && merchants == old(merchants)
      ensures notifications == old(notifications) && points == old(points)
    {
      var found := FindPurchase(purchases, id);
      if found.Some? {
        var i := found.value;
        purchases := purchases[i := purchases[i].(status := Approved)];
      }
      assert forall j :: 0 <= j < |old(purchases)| ==> purchases[j] == ApproveFirst(old(purchases), id)[j];
    }

    /** `deleteUser`: the user list is replaced by its filter; merchants untouched. */
    method DeleteUser(id: int)
      modifies this
      ensures users == WithoutUser(old(users), id)
      ensures merchants == old(merchants) && purchases == old(purchases)
      ensures notifications == old(notifications) && points == old(points)
    {
      users := WithoutUser(users, id);
    }

    /** `deleteMerchant`: the merchant list is replaced by its filter; users untouched. */
    method DeleteMerchant(id: int)
      modifies this
      ensures merchants == WithoutMerchant(old(merchants), id)
      ensures users == old(users) && purchases == old(purchases)
      ensures notifications == old(notifications) && points == old(points)
    {
      merchants := WithoutMerchant(merchants, id);
    }
  }
}
