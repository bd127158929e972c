/** The user-details service: the principal the security layer builds for an
    email. */
module UserDetails {
  import opened Enums
  import opened Outcomes
  import opened Entities
  import opened Users

  /** A principal: its name, its stored credential and its granted
      authorities. */
  datatype Principal = Principal(username: string, password: PasswordHash, authorities: seq<string>)

  /** The single authority a role grants. */
  function AuthorityText(r: RoleName): (s: string)
    ensures |s| > 5 && s[..5] == "ROLE_"
  {
    "ROLE_" + RoleText(r)
  }

  /** Distinct roles grant distinct authorities. */
  lemma AuthorityTextInjective(a: RoleName, b: RoleName)
    ensures AuthorityText(a) == AuthorityText(b) ==> a == b
  {
    if AuthorityText(a) == AuthorityText(b) {
      assert RoleText(a) == AuthorityText(a)[5..];
      RoleTextInjective(a, b);
    }
  }

  /** `loadUserByUsername`; the name looked up is the email. */
  function LoadUserByUsername(users: map<nat, UserModel>, n: nat, username: string): (r: Result<Principal>)
    requires UsersValid(users, n)
    ensures !ExistsByEmail(users, username) ==> r == Failure(UsernameNotFound)
    ensures forall k :: k in users && users[k].email == username ==>
      (users[k].typeUser.None? ==> r == Failure(NoRoleAssigned))
      && (users[k].typeUser.Some? ==>
            r == Success(Principal(username, users[k].password, [AuthorityText(users[k].typeUser.value)])))
  {
    match UserByEmail(users, n, username)
    case None => Failure(UsernameNotFound)
    case Some(user) =>
      if user.typeUser.None? then Failure(NoRoleAssigned)
      else Success(Principal(user.email, user.password, [AuthorityText(user.typeUser.value)]))
  }
}
