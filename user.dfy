/** The account record Spring Security authenticates: its key (login, id),
    password and role, the authorities the role grants, the always-true
    account flags, and the password update. */
module Users {
  import opened Common

  datatype Role = RoleUser | RoleAdmin

  datatype Authority = RoleAdminAuthority | RoleUserAuthority

  /** The authority's name as Spring Security sees it. */
  function AuthorityName(a: Authority): string
  {
    match a
    case RoleAdminAuthority => "ROLE_ADMIN"
    case RoleUserAuthority => "ROLE_USER"
  }

  /** getAuthorities: an administrator gets ROLE_ADMIN then ROLE_USER, anyone
      else ROLE_USER alone. */
  function Authorities(role: Role): (r: seq<Authority>)
    ensures RoleUserAuthority in r
    ensures RoleAdminAuthority in r <==> role == RoleAdmin
    ensures |r| == (if role == RoleAdmin then 2 else 1)
    ensures r[|r| - 1] == RoleUserAuthority
  {
    if role == RoleAdmin then [RoleAdminAuthority, RoleUserAuthority] else [RoleUserAuthority]
  }

  /** The authority names differ, so the list has no repeats. */
  lemma AuthorityNamesDistinct(role: Role)
    ensures var r := Authorities(role);
            forall i, j :: 0 <= i < j < |r| ==> AuthorityName(r[i]) != AuthorityName(r[j])
  {
  }

  /** UpdatePasswordDTO: None stands for a null password. */
  datatype UpdatePasswordDTO = UpdatePasswordDTO(password: Option<string>)

  class User {
    var login: string
    var id: nat
    var password: string
    var role: Role

    constructor (login: string, id: nat, password: string, role: Role)
      ensures this.login == login && this.id == id
      ensures this.password == password && this.role == role
    {
      this.login := login;
      this.id := id;
      this.password := password;
      this.role := role;
    }

    /** getUsername: the login of the key. */
    function Username(): string
      reads this
    {
      login
    }

    /** getId: the id of the key. */
    function Id(): nat
      reads this
    {
      id
    }

    /** isAccountNonExpired, isAccountNonLocked, isCredentialsNonExpired and
        isEnabled all answer true, whatever the state. */
    function AccountFlags(): (flags: seq<bool>)
      reads this
      ensures |flags| == 4 && forall k :: 0 <= k < 4 ==> flags[k]
    {
      [true, true, true, true]
    }

    /** update: a non-null password replaces the current one; nothing else
        changes. */
    method Update(data: UpdatePasswordDTO)
      modifies this
      ensures password == (if data.password.Some? then data.password.value else old(password))
      ensures login == old(login) && id == old(id) && role == old(role)
    {
      if data.password.Some? {
        password := data.password.value;
      }
    }
  }

  /** Updating twice with the same request leaves what updating once does,
      and a null password leaves the user unchanged. */
  method UpdateTwice(u: User, data: UpdatePasswordDTO)
    modifies u
    ensures u.password == (if data.password.Some? then data.password.value else old(u.password))
    ensures data.password.None? ==> u.password == old(u.password)
    ensures u.login == old(u.login) && u.id == old(u.id) && u.role == old(u.role)
  {
    u.Update(data);
    u.Update(data);
  }
}
