/** The records the two data slices share (`Purchase` and `Notification`, declared
    identically in src/features/data/dataSlice.ts and
    src/features/merchant/merchantSlice.ts) and the find-by-id-and-approve step both
    `approvePurchase` reducers perform. Numeric ids are modelled as integers;
    amounts are only carried. */
module SliceRecords {
  import opened Optional

  datatype PurchaseStatus = Pending | Approved

  datatype Purchase = Purchase(id: int, customer: string, amount: real, status: PurchaseStatus)

  datatype Notification = Notification(id: int, message: string)

  /** `i` is the index `find` stops at: the first purchase with this id. */
  predicate IsFirstWithId(ps: seq<Purchase>, id: int, i: int)
  {
    0 <= i < |ps| && ps[i].id == id && forall j :: 0 <= j < i ==> ps[j].id != id
  }

  /** `purchases.find(p => p.id === id)`, as the index of the purchase found. */
  method FindPurchase(ps: seq<Purchase>, id: int) returns (found: Option<nat>)
    ensures found.Some? ==> IsFirstWithId(ps, id, found.value)
    ensures found.None? ==> forall j :: 0 <= j < |ps| ==> ps[j].id != id
  {
    var i := 0;
    while i < |ps|
      invariant 0 <= i <= |ps|
      invariant forall j :: 0 <= j < i ==> ps[j].id != id
    {
      if ps[i].id == id {
        return Some(i);
      }
      i := i + 1;
    }
    return None;
  }

  /** The purchases after the first one with `id` is marked approved; every other
      purchase, and every field but that one's status, is as before. */
  function ApproveFirst(ps: seq<Purchase>, id: int): (r: seq<Purchase>)
    ensures |r| == |ps|
    ensures forall j :: 0 <= j < |ps| ==>
              r[j] == if IsFirstWithId(ps, id, j) then ps[j].(status := Approved) else ps[j]
    decreases |ps|
  {
    if ps == [] then []
    else if ps[0].id == id then [ps[0].(status := Approved)] + ps[1..]
    else
      var rest := ApproveFirst(ps[1..], id);
      assert forall j :: 1 <= j < |ps| ==> (IsFirstWithId(ps, id, j) <==> IsFirstWithId(ps[1..], id, j - 1));
      [ps[0]] + rest
  }

  /** With an id no purchase has, nothing changes. */
  lemma ApproveUnknownId(ps: seq<Purchase>, id: int)
    requires forall j :: 0 <= j < |ps| ==> ps[j].id != id
    ensures ApproveFirst(ps, id) == ps
  {
  }

  /** With a known id, the first purchase carrying it ends up approved. */
  lemma ApproveMarksFirst(ps: seq<Purchase>, id: int, i: int)
    requires IsFirstWithId(ps, id, i)
    ensures ApproveFirst(ps, id)[i] == ps[i].(status := Approved)
    ensures forall j :: 0 <= j < |ps| && j != i ==> ApproveFirst(ps, id)[j] == ps[j]
  {
  }

  /** Approving is idempotent. */
  lemma ApproveIdempotent(ps: seq<Purchase>, id: int)
    ensures ApproveFirst(ApproveFirst(ps, id), id) == ApproveFirst(ps, id)
  {
    var once := ApproveFirst(ps, id);
    assert forall j :: 0 <= j < |ps| ==> once[j].id == ps[j].id;
    assert forall j :: 0 <= j < |ps| ==> (IsFirstWithId(once, id, j) <==> IsFirstWithId(ps, id, j));
  }

  /** Approving never turns an approved purchase back to pending. */
  lemma ApproveKeepsApproved(ps: seq<Purchase>, id: int)
    ensures forall j :: 0 <= j < |ps| && ps[j].status == Approved ==> ApproveFirst(ps, id)[j].status == Approved
  {
  }

  /** The before/after relation every purchase reducer keeps: same purchases in the
      same order, and nothing approved becomes pending. */
  ghost predicate NoneUnapproved(before: seq<Purchase>, after: seq<Purchase>)
  {
    |after| == |before| &&
    forall j :: 0 <= j < |before| ==>
      after[j].id == before[j].id && (before[j].status == Approved ==> after[j].status == Approved)
  }
}
