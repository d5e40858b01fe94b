/** The session slice (src/features/auth/authSlice.ts): a `{token, role}` pair held
    in memory and mirrored to a string key-value snapshot (the browser's
    `localStorage`). The snapshot is the `storage` field of the store. */
module AuthSlice {
  import opened Optional
  import opened Roles

  const TokenKey: string := "token"
  const RoleKey: string := "role"

  /** `AuthState`. The role is kept as the raw string: the startup read casts
      whatever is stored to the role type without checking it. */
  datatype AuthState = AuthState(token: Option<string>, role: Option<string>)

  const SignedOut := AuthState(None, None)

  /** The session `loginSuccess({role: r, token: t})` installs. */
  function SignedIn(r: Role, t: string): AuthState
  {
    AuthState(Some(t), Some(RoleName(r)))
  }

  /** The in-memory state mirrors the snapshot, key by key. */
  predicate Agrees(s: AuthState, storage: map<string, string>)
  {
    s.token == Get(storage, TokenKey) && s.role == Get(storage, RoleKey)
  }

  /** No partial sessions: a token exactly when a role. */
  predicate Paired(s: AuthState)
  {
    s.token.None? <==> s.role.None?
  }

  /** `initialState`: each key is read on its own and taken as it is. */
  function LoadState(storage: map<string, string>): (s: AuthState)
    ensures Agrees(s, storage)
    ensures s.token.Some? <==> TokenKey in storage
    ensures s.role.Some? <==> RoleKey in storage
  {
    AuthState(Get(storage, TokenKey), Get(storage, RoleKey))
  }

  /** The snapshot after the two `setItem` calls of `loginSuccess`. */
  function StoreLogin(storage: map<string, string>, r: Role, t: string): (m: map<string, string>)
    ensures m.Keys == storage.Keys + {TokenKey, RoleKey}
    ensures m[TokenKey] == t && m[RoleKey] == RoleName(r)
    ensures forall k :: k in storage && k != TokenKey && k != RoleKey ==> m[k] == storage[k]
  {
    storage[TokenKey := t][RoleKey := RoleName(r)]
  }

  /** The snapshot after the two `removeItem` calls of `logout`. */
  function StoreLogout(storage: map<string, string>): (m: map<string, string>)
    ensures m.Keys == storage.Keys - {TokenKey, RoleKey}
    ensures forall k :: k in m ==> m[k] == storage[k]
  {
    storage - {TokenKey, RoleKey}
  }

  /** Reading the state back after a login gives exactly the committed session. */
  lemma LoginRoundTrip(storage: map<string, string>, r: Role, t: string)
    ensures LoadState(StoreLogin(storage, r, t)) == SignedIn(r, t)
    ensures Paired(LoadState(StoreLogin(storage, r, t)))
  {
  }

  /** Reading the state back after a logout gives the signed-out state. */
  lemma LogoutRoundTrip(storage: map<string, string>)
    ensures LoadState(StoreLogout(storage)) == SignedOut
  {
  }

  /** Logging out twice leaves the snapshot as logging out once. */
  lemma LogoutIdempotent(storage: map<string, string>)
    ensures StoreLogout(StoreLogout(storage)) == StoreLogout(storage)
  {
  }

  /** The startup read does not enforce pairing: a snapshot holding only a token
      loads as a session with a token and no role. */
  lemma LoadMayBeUnpaired()
    ensures !Paired(LoadState(map[TokenKey := "admin-token"]))
  {
  }

  /** The startup read does not check the role: an unknown role string is loaded
      as it is. */
  lemma LoadKeepsUnknownRole()
    ensures LoadState(map[TokenKey := "t", RoleKey := "superadmin"]).role == Some("superadmin")
    ensures ParseRole("superadmin") == None
  {
  }

  /** The session store: the slice's state plus the snapshot it writes through to. */
  class AuthStore {
    var token: Option<string>
    var role: Option<string>
    var storage: map<string, string>

    function State(): AuthState
      reads this
    {
      AuthState(token, role)
    }

    /** The object invariant: state and snapshot agree. */
    predicate Valid()
      reads this
    {
      Agrees(State(), storage)
    }

    /** The store as the application starts it: `initialState` read from `snapshot`. */
    constructor (snapshot: map<string, string>)
      ensures Valid()
      ensures storage == snapshot && State() == LoadState(snapshot)
    {
      token := Get(snapshot, TokenKey);
      role := Get(snapshot, RoleKey);
      storage := snapshot;
    }

    /** `loginSuccess`: nothing of the previous session survives, and the snapshot
        holds the same pair. */
    method LoginSuccess(r: Role, t: string)
      modifies this
      ensures Valid() && Paired(State())
      ensures State() == SignedIn(r, t)
      ensures storage == StoreLogin(old(storage), r, t)
    {
      token := Some(t);
      role := Some(RoleName(r));
      storage := storage[TokenKey := t];
      storage := storage[RoleKey := RoleName(r)];
    }

    /** `logout`: both fields null and both keys gone. */
    method Logout()
      modifies this
      ensures Valid() && Paired(State())
      ensures State() == SignedOut
      ensures storage == StoreLogout(old(storage))
    {
      token := None;
      role := None;
      storage := storage - {TokenKey};
      storage := storage - {RoleKey};
    }
  }
}
