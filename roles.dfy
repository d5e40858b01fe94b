/** The three roles of the application (`ROLES` in src/utils/constants.ts) and
    the strings that stand for them in paths, in storage and in the guard. */
module Roles {
  import opened Optional

  datatype Role = Admin | Merchant | Member

  function RoleName(r: Role): string
  {
    match r
    case Admin => "admin"
    case Merchant => "merchant"
    case Member => "member"
  }

  /** The role a string names, if any: exact, case-sensitive comparison. */
  function ParseRole(s: string): (r: Option<Role>)
    ensures r.Some? ==> RoleName(r.value) == s
    ensures r.None? ==> forall x: Role :: RoleName(x) != s
  {
    if s == "admin" then Some(Admin)
    else if s == "merchant" then Some(Merchant)
    else if s == "member" then Some(Member)
    else None
  }

  /** Parsing the name of a role gives that role back; hence names are distinct. */
  lemma ParseRoleName(r: Role)
    ensures ParseRole(RoleName(r)) == Some(r)
  {
  }

  lemma RoleNameInjective(r1: Role, r2: Role)
    ensures RoleName(r1) == RoleName(r2) <==> r1 == r2
  {
    ParseRoleName(r1);
    ParseRoleName(r2);
  }
}
