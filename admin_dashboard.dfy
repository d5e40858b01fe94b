/** The admin dashboard's user-management logic
    (src/pages/dashboard/admin/AdminDashboard.tsx): search and filters over the user
    list, the KPI counts, the activate/suspend toggle, creating a merchant (which
    prepends a pending user) and inviting an admin. Each handler is one atomic step. */
module AdminDashboard {
  import opened Optional
  import opened Seqs
  import opened Text
  import opened Roles
  import opened Badges

  datatype UserStatus = Active | Suspended | Pending

  function StatusName(s: UserStatus): string
  {
    match s
    case Active => "active"
    case Suspended => "suspended"
    case Pending => "pending"
  }

  /** A user row; `storeId`/`storeName` are null for non-merchants. */
  datatype User = User(id: string, name: string, email: string, role: Role, status: UserStatus,
                       createdAt: string, storeId: Option<string>, storeName: Option<string>)

  /** The create-merchant dialog's form (`newMerchant`). */
  datatype MerchantForm = MerchantForm(storeName: string, storeId: string, ownerEmail: string, password: string)

  const EmptyMerchantForm := MerchantForm("", "", "", "")

  /** The wildcard value of the role and status filters. */
  const All: string := "all"

  // ----- Search and filters -----

  /** `(field && field.toLowerCase().includes(term.toLowerCase()))`: a null or
      empty (falsy) field never matches. */
  predicate OptionalFieldMatches(field: Option<string>, term: string)
  {
    field.Some? && field.value != "" && IncludesIgnoringCase(field.value, term)
  }

  predicate MatchesSearch(u: User, term: string)
  {
    IncludesIgnoringCase(u.name, term) || IncludesIgnoringCase(u.email, term) ||
    OptionalFieldMatches(u.storeName, term) || OptionalFieldMatches(u.storeId, term)
  }

  predicate MatchesUser(u: User, term: string, roleFilter: string, statusFilter: string)
  {
    MatchesSearch(u, term) &&
    (roleFilter == All || RoleName(u.role) == roleFilter) &&
    (statusFilter == All || StatusName(u.status) == statusFilter)
  }

  function UserMatcher(term: string, roleFilter: string, statusFilter: string): User -> bool
  {
    (u: User) => MatchesUser(u, term, roleFilter, statusFilter)
  }

  /** `filteredUsers`: exactly the matching users, every copy of each, in their
      original order. */
  function FilteredUsers(users: seq<User>, term: string, roleFilter: string, statusFilter: string): (r: seq<User>)
    ensures forall u :: u in r ==> u in users && MatchesUser(u, term, roleFilter, statusFilter)
    ensures forall u :: u in users && MatchesUser(u, term, roleFilter, statusFilter) ==> u in r
    ensures IsSubsequence(r, users)
    ensures forall u :: multiset(r)[u] ==
              if MatchesUser(u, term, roleFilter, statusFilter) then multiset(users)[u] else 0
  {
    FilterIsSubsequence(users, UserMatcher(term, roleFilter, statusFilter));
    FilterMultiset(users, UserMatcher(term, roleFilter, statusFilter));
    Filter(users, UserMatcher(term, roleFilter, statusFilter))
  }

  /** The empty search term matches every user, so only the two selects filter. */
  lemma EmptySearchMatchesEveryone(u: User)
    ensures MatchesSearch(u, "")
  {
    assert LowerString("") == "";
    IncludesEmpty(LowerString(u.name));
  }

  /** With an empty search term and both selects at "all" the whole list is shown. */
  lemma NoFilterShowsEveryone(users: seq<User>)
    ensures FilteredUsers(users, "", All, All) == users
  {
    forall u | u in users ensures MatchesUser(u, "", All, All) {
      EmptySearchMatchesEveryone(u);
    }
    FilterAll(users, UserMatcher("", All, All));
  }

  /** A user without a store is found only through name or email. */
  lemma StorelessMatchesByNameOrEmail(u: User, term: string)
    requires u.storeName.None? && u.storeId.None?
    ensures MatchesSearch(u, term) <==> IncludesIgnoringCase(u.name, term) || IncludesIgnoringCase(u.email, term)
  {
  }

  // ----- Stats -----

  function HasRole(r: Role): User -> bool
  {
    (u: User) => u.role == r
  }

  function HasStatus(s: UserStatus): User -> bool
  {
    (u: User) => u.status == s
  }

  /** The KPI cards; the growth percentages beside them are fixed mock numbers. */
  datatype UserStats = UserStats(totalUsers: nat, totalMerchants: nat, activeUsers: nat, pendingUsers: nat)

  /** `stats`: the total is the list length, the others are filter counts, and the
      active and pending users together never exceed the total. */
  function ComputeStats(users: seq<User>): (s: UserStats)
    ensures s.totalUsers == |users|
    ensures s.totalMerchants == |Filter(users, HasRole(Merchant))| <= s.totalUsers
    ensures s.activeUsers == |Filter(users, HasStatus(Active))|
    ensures s.pendingUsers == |Filter(users, HasStatus(Pending))|
    ensures s.activeUsers + s.pendingUsers <= s.totalUsers
  {
    DisjointCountsBounded(users, HasStatus(Active), HasStatus(Pending));
    UserStats(|users|, |Filter(users, HasRole(Merchant))|, |Filter(users, HasStatus(Active))|,
              |Filter(users, HasStatus(Pending))|)
  }

  // ----- Status change and toggle -----

  function WithStatusIfId(id: string, s: UserStatus): User -> User
  {
    (u: User) => if u.id == id then u.(status := s) else u
  }

  /** `handleStatusChange(id, s)`'s new list: users with that id take status `s`;
      nothing else changes. */
  function StatusChange(users: seq<User>, id: string, s: UserStatus): (r: seq<User>)
    ensures |r| == |users|
    ensures forall i :: 0 <= i < |users| ==>
              r[i] == if users[i].id == id then users[i].(status := s) else users[i]
  {
    MapSeq(users, WithStatusIfId(id, s))
  }

  /** The status toggle is offered only on users that are not pending. */
  predicate ToggleOffered(s: UserStatus)
  {
    s != Pending
  }

  /** The status the toggle asks for: `status === "active" ? "suspended" : "active"`. */
  function ToggleTarget(s: UserStatus): (t: UserStatus)
    ensures t != Pending && t != s
  {
    if s == Active then Suspended else Active
  }

  /** Toggling twice restores an offered status. */
  lemma ToggleInvolution(s: UserStatus)
    requires ToggleOffered(s)
    ensures ToggleTarget(ToggleTarget(s)) == s
  {
  }

  /** On the list: when every user with `id` shows the same offered status, two
      toggles give back the original list. */
  lemma ToggleTwiceRestores(users: seq<User>, id: string, s: UserStatus)
    requires ToggleOffered(s)
    requires forall i :: 0 <= i < |users| && users[i].id == id ==> users[i].status == s
    ensures StatusChange(StatusChange(users, id, ToggleTarget(s)), id, ToggleTarget(ToggleTarget(s))) == users
  {
    var once := StatusChange(users, id, ToggleTarget(s));
    var twice := StatusChange(once, id, ToggleTarget(ToggleTarget(s)));
    forall i | 0 <= i < |users| ensures twice[i] == users[i] {
      if users[i].id == id {
        assert once[i] == users[i].(status := ToggleTarget(s));
      }
    }
  }

  // ----- Create merchant -----

  /** The user `handleCreateMerchant` builds: id is the old length plus one as a
      decimal string, role merchant, status pending, the store name doubling as the
      user's name, and `today` standing for the clock's date. */
  function NewMerchantUser(users: seq<User>, form: MerchantForm, today: string): (u: User)
    ensures u.id == DecimalString(|users| + 1)
    ensures u.role == Merchant && u.status == Pending
    ensures u.name == form.storeName && u.email == form.ownerEmail && u.createdAt == today
    ensures u.storeId == Some(form.storeId) && u.storeName == Some(form.storeName)
  {
    User(DecimalString(|users| + 1), form.storeName, form.ownerEmail, Merchant, Pending,
         today, Some(form.storeId), Some(form.storeName))
  }

  /** `[newUser, ...users]`: one user in front, the old list after it unchanged. */
  function CreateMerchant(users: seq<User>, form: MerchantForm, today: string): (r: seq<User>)
    ensures |r| == |users| + 1 && r[0] == NewMerchantUser(users, form, today) && r[1..] == users
  {
    [NewMerchantUser(users, form, today)] + users
  }

  /** The ids are pairwise distinct and are the decimal strings of 1 to the length:
      true of the fixture list, and what makes "length plus one" a fresh id. */
  ghost predicate IdsAreOneToN(users: seq<User>)
  {
    (forall i, j :: 0 <= i < j < |users| ==> users[i].id != users[j].id) &&
    (forall i :: 0 <= i < |users| ==> exists k :: 1 <= k <= |users| && users[i].id == DecimalString(k))
  }

  /** Creating a merchant keeps ids distinct and numbered 1..n: the new id is not
      already taken. */
  lemma CreateKeepsIdsOneToN(users: seq<User>, form: MerchantForm, today: string)
    requires IdsAreOneToN(users)
    ensures forall u :: u in users ==> u.id != NewMerchantUser(users, form, today).id
    ensures IdsAreOneToN(CreateMerchant(users, form, today))
  {
    var n := |users|;
    forall i | 0 <= i < n ensures users[i].id != DecimalString(n + 1) {
      var k :| 1 <= k <= n && users[i].id == DecimalString(k);
      DecimalStringInjective(k, n + 1);
    }
    var r := CreateMerchant(users, form, today);
    forall i | 0 <= i < |r| ensures exists k :: 1 <= k <= |r| && r[i].id == DecimalString(k) {
      if i == 0 {
        assert r[0].id == DecimalString(n + 1);
      } else {
        assert r[i] == users[i - 1];
        var k :| 1 <= k <= n && users[i - 1].id == DecimalString(k);
        assert r[i].id == DecimalString(k);
      }
    }
    forall i, j | 0 <= i < j < |r| ensures r[i].id != r[j].id {
      assert r[j] == users[j - 1];
      if i > 0 {
        assert r[i] == users[i - 1];
      }
    }
  }

  // ----- Badge variants -----

  /** `getStatusBadgeVariant`. */
  function StatusBadgeVariant(status: string): (v: Variant)
    ensures status == "active" ==> v == Default
    ensures status == "suspended" ==> v == Destructive
    ensures status != "active" && status != "suspended" ==> v == Secondary
  {
    if status == "active" then Default
    else if status == "suspended" then Destructive
    else if status == "pending" then Secondary
    else Secondary
  }

  /** This dashboard's `getRoleBadgeVariant`: unlike the navigation bar's, an
      unknown role falls back to the member variant, not to outline. */
  function RoleBadgeVariant(role: string): (v: Variant)
    ensures role == "admin" ==> v == Destructive
    ensures role == "merchant" ==> v == Default
    ensures role != "admin" && role != "merchant" ==> v == Secondary
  {
    if role == "admin" then Destructive
    else if role == "merchant" then Default
    else if role == "member" then Secondary
    else Secondary
  }

  /** The state the handlers change. */
  class AdminDashboardState {
    var users: seq<User>
    var searchTerm: string
    var roleFilter: string
    var statusFilter: string
    var isLoading: bool
    var showCreateMerchant: bool
    var showInviteAdmin: bool
    var newMerchant: MerchantForm
    var inviteEmail: string

    constructor (users0: seq<User>)
      ensures users == users0 && searchTerm == "" && roleFilter == All && statusFilter == All
      ensures !isLoading && !showCreateMerchant && !showInviteAdmin
      ensures newMerchant == EmptyMerchantForm && inviteEmail == ""
    {
      users := users0;
      searchTerm, roleFilter, statusFilter := "", All, All;
      isLoading, showCreateMerchant, showInviteAdmin := false, false, false;
      newMerchant := EmptyMerchantForm;
      inviteEmail := "";
    }

    /** The rows of the user table. */
    function Listed(): seq<User>
      reads this
    {
      FilteredUsers(users, searchTerm, roleFilter, statusFilter)
    }

    function Stats(): UserStats
      reads this
    {
      ComputeStats(users)
    }

    /** The search box and the two selects. */
    method SetFilters(term: string, role: string, status: string)
      modifies this
      ensures searchTerm == term && roleFilter == role && statusFilter == status
      ensures users == old(users) && isLoading == old(isLoading)
      ensures newMerchant == old(newMerchant) && inviteEmail == old(inviteEmail)
      ensures showCreateMerchant == old(showCreateMerchant) && showInviteAdmin == old(showInviteAdmin)
    {
      searchTerm, roleFilter, statusFilter := term, role, status;
    }

    /** `handleStatusChange`, whose new status is active or suspended. */
    method HandleStatusChange(id: string, s: UserStatus)
      requires s != Pending
      modifies this
      ensures users == StatusChange(old(users), id, s) && !isLoading
      ensures searchTerm == old(searchTerm) && roleFilter == old(roleFilter) && statusFilter == old(statusFilter)
      ensures newMerchant == old(newMerchant) && inviteEmail == old(inviteEmail)
      ensures showCreateMerchant == old(showCreateMerchant) && showInviteAdmin == old(showInviteAdmin)
    {
      isLoading := true;
      users := StatusChange(users, id, s);
      isLoading := false;
    }

    /** The row's toggle button, rendered only for a user that is not pending. */
    method ToggleClicked(u: User)
      requires ToggleOffered(u.status)
      modifies this
      ensures users == StatusChange(old(users), u.id, ToggleTarget(u.status)) && !isLoading
      ensures searchTerm == old(searchTerm) && roleFilter == old(roleFilter) && statusFilter == old(statusFilter)
      ensures newMerchant == old(newMerchant) && inviteEmail == old(inviteEmail)
      ensures showCreateMerchant == old(showCreateMerchant) && showInviteAdmin == old(showInviteAdmin)
    {
      HandleStatusChange(u.id, ToggleTarget(u.status));
    }

    /** The create-merchant dialog's inputs. */
    method EditNewMerchant(form: MerchantForm)
      modifies this
      ensures newMerchant == form
      ensures users == old(users) && inviteEmail == old(inviteEmail) && isLoading == old(isLoading)
      ensures searchTerm == old(searchTerm) && roleFilter == old(roleFilter) && statusFilter == old(statusFilter)
      ensures showCreateMerchant == old(showCreateMerchant) && showInviteAdmin == old(showInviteAdmin)
    {
      newMerchant := form;
    }

    /** Opening or cancelling the create-merchant dialog; the form is kept. */
    method SetShowCreateMerchant(open: bool)
      modifies this
      ensures showCreateMerchant == open
      ensures users == old(users) && newMerchant == old(newMerchant) && inviteEmail == old(inviteEmail)
      ensures searchTerm == old(searchTerm) && roleFilter == old(roleFilter) && statusFilter == old(statusFilter)
      ensures showInviteAdmin == old(showInviteAdmin) && isLoading == old(isLoading)
    {
      showCreateMerchant := open;
    }

    /** `handleCreateMerchant`: prepend the new merchant, empty the form, close the
        dialog. The form is not validated. */
    method HandleCreateMerchant(today: string)
      modifies this
      ensures users == CreateMerchant(old(users), old(newMerchant), today)
      ensures newMerchant == EmptyMerchantForm && !showCreateMerchant && !isLoading
      ensures searchTerm == old(searchTerm) && roleFilter == old(roleFilter) && statusFilter == old(statusFilter)
      ensures inviteEmail == old(inviteEmail) && showInviteAdmin == old(showInviteAdmin)
    {
      isLoading := true;
      var newUser := NewMerchantUser(users, newMerchant, today);
      users := [newUser] + users;
      newMerchant := EmptyMerchantForm;
      showCreateMerchant := false;
      isLoading := false;
    }

    method EditInviteEmail(email: string)
      modifies this
      ensures inviteEmail == email
      ensures users == old(users) && newMerchant == old(newMerchant) && isLoading == old(isLoading)
      ensures searchTerm == old(searchTerm) && roleFilter == old(roleFilter) && statusFilter == old(statusFilter)
      ensures showCreateMerchant == old(showCreateMerchant) && showInviteAdmin == old(showInviteAdmin)
    {
      inviteEmail := email;
    }

    /** Opening or cancelling the invite dialog; the email is kept. */
    method SetShowInviteAdmin(open: bool)
      modifies this
      ensures showInviteAdmin == open
      ensures users == old(users) && newMerchant == old(newMerchant) && inviteEmail == old(inviteEmail)
      ensures searchTerm == old(searchTerm) && roleFilter == old(roleFilter) && statusFilter == old(statusFilter)
      ensures showCreateMerchant == old(showCreateMerchant) && isLoading == old(isLoading)
    {
      showInviteAdmin := open;
    }

    /** `handleInviteAdmin`: no invitation is actually sent; the email is cleared and
        the dialog closed, the user list untouched. */
    method HandleInviteAdmin()
      modifies this
      ensures inviteEmail == "" && !showInviteAdmin && !isLoading
      ensures users == old(users) && newMerchant == old(newMerchant)
      ensures searchTerm == old(searchTerm) && roleFilter == old(roleFilter) && statusFilter == old(statusFilter)
      ensures showCreateMerchant == old(showCreateMerchant)
    {
      isLoading := true;
      inviteEmail := "";
      showInviteAdmin := false;
      isLoading := false;
    }
  }
}
