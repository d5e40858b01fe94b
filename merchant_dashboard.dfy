/** The merchant dashboard's list logic (src/pages/dashboard/merchant/MerchantDashboard.tsx):
    KPI counts, the status/date filter, single and bulk approve/reject, row
    selection, customer search and notification read-marking. Each handler is one
    atomic step; the artificial delays only drive the loading flag. */
module MerchantDashboard {
  import opened Optional
  import opened Seqs
  import opened Text
  import opened Badges

  datatype Status = Pending | Approved | Rejected

  function StatusName(s: Status): string
  {
    match s
    case Pending => "pending"
    case Approved => "approved"
    case Rejected => "rejected"
  }

  datatype Action = Approve | Reject

  /** `action === "approve" ? "approved" : "rejected"`. */
  function ActionStatus(a: Action): Status
  {
    if a == Approve then Approved else Rejected
  }

  datatype Purchase = Purchase(id: string, customer: string, amount: real, points: int,
                               date: string, status: Status, memberId: string)

  datatype Customer = Customer(id: string, name: string, memberId: string, pointsBalance: int,
                               lastPurchaseDate: string, email: string, phone: string,
                               totalPurchases: int, totalSpent: real, joinDate: string, tier: string)

  datatype NotificationKind = ApprovalRequest | Info

  datatype Notification = Notification(id: string, title: string, kind: NotificationKind,
                                       message: string, createdAt: string, read: bool)

  /** The date `approvedToday` counts, fixed in the source. */
  const ApprovedTodayDate: string := "2024-03-20"

  /** The wildcard value of both filters. */
  const All: string := "all"

  // ----- Stats -----

  function IsPending(): Purchase -> bool
  {
    (p: Purchase) => p.status == Pending
  }

  function IsApprovedToday(): Purchase -> bool
  {
    (p: Purchase) => p.status == Approved && p.date == ApprovedTodayDate
  }

  function IsUnread(): Notification -> bool
  {
    (n: Notification) => !n.read
  }

  /** The KPI cards; the growth percentages beside them are fixed mock numbers. */
  datatype Stats = Stats(pendingApprovals: nat, approvedToday: nat, contributionRate: real, unreadNotifications: nat)

  /** `stats`: each count is a filter count, and since nothing is both pending and
      approved the two purchase counts together never exceed the purchases. */
  function ComputeStats(purchases: seq<Purchase>, notifications: seq<Notification>, rate: real): (s: Stats)
    ensures s.pendingApprovals == |Filter(purchases, IsPending())|
    ensures s.approvedToday == |Filter(purchases, IsApprovedToday())|
    ensures s.unreadNotifications == |Filter(notifications, IsUnread())|
    ensures s.contributionRate == rate
    ensures s.pendingApprovals + s.approvedToday <= |purchases|
    ensures s.unreadNotifications <= |notifications|
  {
    DisjointCountsBounded(purchases, IsPending(), IsApprovedToday());
    Stats(|Filter(purchases, IsPending())|, |Filter(purchases, IsApprovedToday())|, rate,
          |Filter(notifications, IsUnread())|)
  }

  // ----- Purchase filter -----

  /** `statusFilter === "all" || purchase.status === statusFilter` and the same for the date. */
  predicate MatchesFilters(p: Purchase, statusFilter: string, dateFilter: string)
  {
    (statusFilter == All || StatusName(p.status) == statusFilter) &&
    (dateFilter == All || p.date == dateFilter)
  }

  function FilterPredicate(statusFilter: string, dateFilter: string): Purchase -> bool
  {
    (p: Purchase) => MatchesFilters(p, statusFilter, dateFilter)
  }

  /** `filteredPurchases`: exactly the matching purchases, every copy of each, in
      their original order. */
  function FilteredPurchases(purchases: seq<Purchase>, statusFilter: string, dateFilter: string): (r: seq<Purchase>)
    ensures forall p :: p in r ==> p in purchases && MatchesFilters(p, statusFilter, dateFilter)
    ensures forall p :: p in purchases && MatchesFilters(p, statusFilter, dateFilter) ==> p in r
    ensures IsSubsequence(r, purchases)
    ensures forall p :: multiset(r)[p] ==
              if MatchesFilters(p, statusFilter, dateFilter) then multiset(purchases)[p] else 0
  {
    FilterIsSubsequence(purchases, FilterPredicate(statusFilter, dateFilter));
    FilterMultiset(purchases, FilterPredicate(statusFilter, dateFilter));
    Filter(purchases, FilterPredicate(statusFilter, dateFilter))
  }

  /** With both filters at "all" every purchase is listed, in order. */
  lemma FilterAllShowsEverything(purchases: seq<Purchase>)
    ensures FilteredPurchases(purchases, All, All) == purchases
  {
    FilterAll(purchases, FilterPredicate(All, All));
  }

  // ----- Approve / reject -----

  function ActOn(id: string, a: Action): Purchase -> Purchase
  {
    (p: Purchase) => if p.id == id then p.(status := ActionStatus(a)) else p
  }

  /** `handlePurchaseAction(id, a)`'s new list: every purchase with that id takes
      the action's status; the length, the order and every other record are kept. */
  function PurchaseAction(purchases: seq<Purchase>, id: string, a: Action): (r: seq<Purchase>)
    ensures |r| == |purchases|
    ensures forall i :: 0 <= i < |purchases| && purchases[i].id == id ==>
              r[i] == purchases[i].(status := ActionStatus(a))
    ensures forall i :: 0 <= i < |purchases| && purchases[i].id != id ==> r[i] == purchases[i]
  {
    MapSeq(purchases, ActOn(id, a))
  }

  function PendingWithId(id: string): Purchase -> bool
  {
    (p: Purchase) => p.status == Pending && p.id == id
  }

  function PendingWithOtherId(id: string): Purchase -> bool
  {
    (p: Purchase) => p.status == Pending && p.id != id
  }

  /** Acting on an id takes exactly the pending purchases with that id off the
      pending count. */
  lemma PurchaseActionPendingCount(purchases: seq<Purchase>, id: string, a: Action)
    ensures |Filter(PurchaseAction(purchases, id, a), IsPending())|
            == |Filter(purchases, IsPending())| - |Filter(purchases, PendingWithId(id))|
  {
    CountAfterMap(purchases, ActOn(id, a), IsPending(), PendingWithOtherId(id));
    CountRefine(purchases, IsPending(), PendingWithId(id), PendingWithOtherId(id), (p: Purchase) => p.id == id);
  }

  /** Acting twice with the same action is acting once. */
  lemma PurchaseActionIdempotent(purchases: seq<Purchase>, id: string, a: Action)
    ensures PurchaseAction(PurchaseAction(purchases, id, a), id, a) == PurchaseAction(purchases, id, a)
  {
  }

  function BulkAct(selected: seq<string>, a: Action): Purchase -> Purchase
  {
    (p: Purchase) => if p.id in selected then p.(status := ActionStatus(a)) else p
  }

  /** `handleBulkAction(a)`'s new list: selected purchases take the action's status,
      the others are untouched. */
  function BulkAction(purchases: seq<Purchase>, selected: seq<string>, a: Action): (r: seq<Purchase>)
    ensures |r| == |purchases|
    ensures forall i :: 0 <= i < |purchases| && purchases[i].id in selected ==>
              r[i] == purchases[i].(status := ActionStatus(a))
    ensures forall i :: 0 <= i < |purchases| && purchases[i].id !in selected ==> r[i] == purchases[i]
  {
    MapSeq(purchases, BulkAct(selected, a))
  }

  function PendingUnselected(selected: seq<string>): Purchase -> bool
  {
    (p: Purchase) => p.status == Pending && p.id !in selected
  }

  /** After a bulk action the only pending purchases are the unselected pending ones. */
  lemma BulkActionPendingCount(purchases: seq<Purchase>, selected: seq<string>, a: Action)
    ensures |Filter(BulkAction(purchases, selected, a), IsPending())|
            == |Filter(purchases, PendingUnselected(selected))|
  {
    CountAfterMap(purchases, BulkAct(selected, a), IsPending(), PendingUnselected(selected));
  }

  // ----- Selection -----

  function PurchaseId(): Purchase -> string
  {
    (p: Purchase) => p.id
  }

  /** The select-all checkbox: the ids of the listed purchases, or nothing. */
  function SelectAll(checked: bool, filtered: seq<Purchase>): (r: seq<string>)
    ensures checked ==> |r| == |filtered| && forall i :: 0 <= i < |filtered| ==> r[i] == filtered[i].id
    ensures !checked ==> r == []
  {
    if checked then MapSeq(filtered, PurchaseId()) else []
  }

  function IsNot(id: string): string -> bool
  {
    (x: string) => x != id
  }

  /** A row checkbox: checking appends the id; unchecking removes every copy of it
      and keeps every copy of the other ids, in order. */
  function ToggleRow(selected: seq<string>, id: string, checked: bool): (r: seq<string>)
    ensures checked ==> r == selected + [id]
    ensures !checked ==> id !in r && IsSubsequence(r, selected) &&
                         forall x :: x in selected && x != id ==> x in r
    ensures !checked ==> forall x :: multiset(r)[x] == if x != id then multiset(selected)[x] else 0
  {
    if checked then selected + [id]
    else
      FilterIsSubsequence(selected, IsNot(id));
      FilterMultiset(selected, IsNot(id));
      Filter(selected, IsNot(id))
  }

  // ----- Customer search -----

  /** Name, email or member id contains the query, ignoring ASCII case. */
  predicate CustomerMatches(c: Customer, query: string)
  {
    IncludesIgnoringCase(c.name, query) || IncludesIgnoringCase(c.email, query) ||
    IncludesIgnoringCase(c.memberId, query)
  }

  function CustomerMatcher(query: string): Customer -> bool
  {
    (c: Customer) => CustomerMatches(c, query)
  }

  /** `handleCustomerSearch`'s results: nothing for a blank query, otherwise exactly
      the matching customers, every copy of each, in their original order. */
  function CustomerSearch(customers: seq<Customer>, query: string): (r: seq<Customer>)
    ensures IsBlank(query) ==> r == []
    ensures !IsBlank(query) ==>
              (forall c :: c in r ==> c in customers && CustomerMatches(c, query)) &&
              (forall c :: c in customers && CustomerMatches(c, query) ==> c in r) &&
              IsSubsequence(r, customers) &&
              (forall c :: multiset(r)[c] == if CustomerMatches(c, query) then multiset(customers)[c] else 0)
  {
    if IsBlank(query) then []
    else
      FilterIsSubsequence(customers, CustomerMatcher(query));
      FilterMultiset(customers, CustomerMatcher(query));
      Filter(customers, CustomerMatcher(query))
  }

  // ----- Notifications -----

  function ReadIfId(id: string): Notification -> Notification
  {
    (n: Notification) => if n.id == id then n.(read := true) else n
  }

  function MarkAsRead(): Notification -> Notification
  {
    (n: Notification) => n.(read := true)
  }

  /** `markNotificationAsRead(id)`'s new list: only the notifications with that id
      change, and only in `read`. */
  function MarkNotificationRead(notifications: seq<Notification>, id: string): (r: seq<Notification>)
    ensures |r| == |notifications|
    ensures forall i :: 0 <= i < |notifications| ==>
              r[i] == if notifications[i].id == id then notifications[i].(read := true) else notifications[i]
  {
    MapSeq(notifications, ReadIfId(id))
  }

  /** `markAllNotificationsAsRead`'s new list: every notification read, nothing else changed. */
  function MarkAllNotificationsRead(notifications: seq<Notification>): (r: seq<Notification>)
    ensures |r| == |notifications|
    ensures forall i :: 0 <= i < |notifications| ==> r[i] == notifications[i].(read := true)
  {
    MapSeq(notifications, MarkAsRead())
  }

  function UnreadWithOtherId(id: string): Notification -> bool
  {
    (n: Notification) => !n.read && n.id != id
  }

  function UnreadWithId(id: string): Notification -> bool
  {
    (n: Notification) => !n.read && n.id == id
  }

  /** Marking one id read takes exactly the unread notifications with that id off the unread count. */
  lemma MarkReadUnreadCount(notifications: seq<Notification>, id: string)
    ensures |Filter(MarkNotificationRead(notifications, id), IsUnread())|
            == |Filter(notifications, IsUnread())| - |Filter(notifications, UnreadWithId(id))|
  {
    CountAfterMap(notifications, ReadIfId(id), IsUnread(), UnreadWithOtherId(id));
    CountRefine(notifications, IsUnread(), UnreadWithId(id), UnreadWithOtherId(id), (n: Notification) => n.id == id);
  }

  /** After marking all read the unread count is zero, and marking all again changes nothing. */
  lemma MarkAllReadClearsUnread(notifications: seq<Notification>)
    ensures |Filter(MarkAllNotificationsRead(notifications), IsUnread())| == 0
    ensures MarkAllNotificationsRead(MarkAllNotificationsRead(notifications))
            == MarkAllNotificationsRead(notifications)
  {
    var r := MarkAllNotificationsRead(notifications);
    assert forall n :: n in r ==> n.read;
    FilterNone(r, IsUnread());
  }

  // ----- Badge variants -----

  /** `getStatusBadgeVariant`: the three statuses get three different variants; any
      other string falls back to the pending one. */
  function StatusBadgeVariant(status: string): (v: Variant)
    ensures status == "approved" ==> v == Default
    ensures status == "pending" ==> v == Secondary
    ensures status == "rejected" ==> v == Destructive
    ensures status !in {"approved", "pending", "rejected"} ==> v == Secondary
  {
    if status == "approved" then Default
    else if status == "pending" then Secondary
    else if status == "rejected" then Destructive
    else Secondary
  }

  /** `getTierBadgeVariant`. */
  function TierBadgeVariant(tier: string): (v: Variant)
    ensures tier == "Platinum" ==> v == Default
    ensures tier == "Gold" ==> v == Secondary
    ensures tier != "Platinum" && tier != "Gold" ==> v == Outline
  {
    if tier == "Platinum" then Default
    else if tier == "Gold" then Secondary
    else if tier == "Silver" then Outline
    else Outline
  }

  /** The dashboard's state (the `useState` hooks that its handlers change). */
  class MerchantDashboardState {
    var purchases: seq<Purchase>
    var customers: seq<Customer>
    var notifications: seq<Notification>
    var selectedPurchases: seq<string>
    var customerSearch: string
    var customerResults: seq<Customer>
    var contributionRate: real
    var statusFilter: string
    var dateFilter: string
    var isLoading: bool

    constructor (purchases0: seq<Purchase>, customers0: seq<Customer>, notifications0: seq<Notification>, rate0: real)
      ensures purchases == purchases0 && customers == customers0 && notifications == notifications0
      ensures contributionRate == rate0 && selectedPurchases == [] && customerSearch == ""
      ensures customerResults == [] && statusFilter == All && dateFilter == All && !isLoading
    {
      purchases, customers, notifications := purchases0, customers0, notifications0;
      contributionRate := rate0;
      selectedPurchases, customerSearch, customerResults := [], "", [];
      statusFilter, dateFilter := All, All;
      isLoading := false;
    }

    function Stats(): Stats
      reads this
    {
      ComputeStats(purchases, notifications, contributionRate)
    }

    function Listed(): seq<Purchase>
      reads this
    {
      FilteredPurchases(purchases, statusFilter, dateFilter)
    }

    method SetStatusFilter(value: string)
      modifies this
      ensures statusFilter == value && dateFilter == old(dateFilter)
      ensures purchases == old(purchases) && customers == old(customers)
      ensures notifications == old(notifications) && selectedPurchases == old(selectedPurchases)
      ensures customerSearch == old(customerSearch) && customerResults == old(customerResults)
      ensures contributionRate == old(contributionRate) && isLoading == old(isLoading)
    {
      statusFilter := value;
    }

    method SetDateFilter(value: string)
      modifies this
      ensures dateFilter == value && statusFilter == old(statusFilter)
      ensures purchases == old(purchases) && customers == old(customers)
      ensures notifications == old(notifications) && selectedPurchases == old(selectedPurchases)
      ensures customerSearch == old(customerSearch) && customerResults == old(customerResults)
      ensures contributionRate == old(contributionRate) && isLoading == old(isLoading)
    {
      dateFilter := value;
    }

    /** Typing in the search box: the results stay as they were until searched. */
    method SetCustomerSearch(value: string)
      modifies this
      ensures customerSearch == value && customerResults == old(customerResults)
      ensures purchases == old(purchases) && customers == old(customers)
      ensures notifications == old(notifications) && selectedPurchases == old(selectedPurchases)
      ensures contributionRate == old(contributionRate) && isLoading == old(isLoading)
      ensures statusFilter == old(statusFilter) && dateFilter == old(dateFilter)
    {
      customerSearch := value;
    }

    /** `handlePurchaseAction`. */
    method HandlePurchaseAction(id: string, a: Action)
      modifies this
      ensures purchases == PurchaseAction(old(purchases), id, a) && !isLoading
      ensures customers == old(customers) && notifications == old(notifications)
      ensures selectedPurchases == old(selectedPurchases)
      ensures customerSearch == old(customerSearch) && customerResults == old(customerResults)
      ensures contributionRate == old(contributionRate)
      ensures statusFilter == old(statusFilter) && dateFilter == old(dateFilter)
    {
      isLoading := true;
      purchases := PurchaseAction(purchases, id, a);
      isLoading := false;
    }

    /** `handleBulkAction`: act on every selected purchase, then empty the selection. */
    method HandleBulkAction(a: Action)
      modifies this
      ensures purchases == BulkAction(old(purchases), old(selectedPurchases), a)
      ensures selectedPurchases == [] && !isLoading
      ensures customers == old(customers) && notifications == old(notifications)
      ensures customerSearch == old(customerSearch) && customerResults == old(customerResults)
      ensures contributionRate == old(contributionRate)
      ensures statusFilter == old(statusFilter) && dateFilter == old(dateFilter)
    {
      isLoading := true;
      purchases := BulkAction(purchases, selectedPurchases, a);
      selectedPurchases := [];
      isLoading := false;
    }

    /** `handleCustomerSearch`. */
    method HandleCustomerSearch()
      modifies this
      ensures customerResults == CustomerSearch(customers, customerSearch)
      ensures customerSearch == old(customerSearch) && customers == old(customers)
      ensures purchases == old(purchases) && notifications == old(notifications)
      ensures selectedPurchases == old(selectedPurchases)
      ensures contributionRate == old(contributionRate) && isLoading == old(isLoading)
      ensures statusFilter == old(statusFilter) && dateFilter == old(dateFilter)
    {
      customerResults := CustomerSearch(customers, customerSearch);
    }

    method MarkNotificationAsRead(id: string)
      modifies this
      ensures notifications == MarkNotificationRead(old(notifications), id)
      ensures purchases == old(purchases) && customers == old(customers)
      ensures selectedPurchases == old(selectedPurchases)
      ensures customerSearch == old(customerSearch) && customerResults == old(customerResults)
      ensures contributionRate == old(contributionRate) && isLoading == old(isLoading)
      ensures statusFilter == old(statusFilter) && dateFilter == old(dateFilter)
    {
      notifications := MarkNotificationRead(notifications, id);
    }

    method MarkAllNotificationsAsRead()
      modifies this
      ensures notifications == MarkAllNotificationsRead(old(notifications))
      ensures purchases == old(purchases) && customers == old(customers)
      ensures selectedPurchases == old(selectedPurchases)
      ensures customerSearch == old(customerSearch) && customerResults == old(customerResults)
      ensures contributionRate == old(contributionRate) && isLoading == old(isLoading)
      ensures statusFilter == old(statusFilter) && dateFilter == old(dateFilter)
    {
      notifications := MarkAllNotificationsRead(notifications);
    }

    /** The header checkbox's `onCheckedChange`. */
    method SelectAllChanged(checked: bool)
      modifies this
      ensures selectedPurchases == SelectAll(checked, old(Listed()))
      ensures purchases == old(purchases) && customers == old(customers)
      ensures notifications == old(notifications)
      ensures customerSearch == old(customerSearch) && customerResults == old(customerResults)
      ensures contributionRate == old(contributionRate) && isLoading == old(isLoading)
      ensures statusFilter == old(statusFilter) && dateFilter == old(dateFilter)
    {
      selectedPurchases := SelectAll(checked, FilteredPurchases(purchases, statusFilter, dateFilter));
    }

    /** A row checkbox's `onCheckedChange`. */
    method RowSelectionChanged(id: string, checked: bool)
      modifies this
      ensures selectedPurchases == ToggleRow(old(selectedPurchases), id, checked)
      ensures purchases == old(purchases) && customers == old(customers)
      ensures notifications == old(notifications)
      ensures customerSearch == old(customerSearch) && customerResults == old(customerResults)
      ensures contributionRate == old(contributionRate) && isLoading == old(isLoading)
      ensures statusFilter == old(statusFilter) && dateFilter == old(dateFilter)
    {
      selectedPurchases := ToggleRow(selectedPurchases, id, checked);
    }
  }
}
