/**
 * The user store behind UserService: registration of users and admins with
 * unique usernames and emails, each new account given exactly one role,
 * and lookup by username (and by email, which the booking service uses to
 * link a booking to its registered owner).
 */
module Users {
  import opened Common

  /** Users are identified by their position in the store. */
  type UserId = nat

  /** A user row; `password` is the already encoded password. */
  datatype User = User(username: string, email: string, password: string, roles: set<string>)

  datatype UserError =
    | UsernameTaken
    | EmailTaken
    | RoleNotFound(roleName: string)
    | UserNotFound(username: string)

  const RoleUser: string := "ROLE_USER"
  const RoleAdmin: string := "ROLE_ADMIN"

  /** Position of the first user satisfying `matches`, as a repository query finds it. */
  function IndexWhere(users: seq<User>, matches: User -> bool): (r: Option<UserId>)
    ensures r.Some? ==> r.value < |users| && matches(users[r.value])
    ensures r.Some? ==> forall i :: 0 <= i < r.value ==> !matches(users[i])
    ensures r.None? <==> forall i :: 0 <= i < |users| ==> !matches(users[i])
    decreases |users|
  {
    if users == [] then None
    else if matches(users[0]) then Some(0)
    else
      match IndexWhere(users[1..], matches)
      case None => None
      case Some(i) => Some(i + 1)
  }

  /** `userRepository.findByUsername`. */
  function UsernameIndex(users: seq<User>, name: string): (r: Option<UserId>)
    ensures r.Some? ==> r.value < |users| && users[r.value].username == name
    ensures r.None? <==> forall i :: 0 <= i < |users| ==> users[i].username != name
  {
    IndexWhere(users, (u: User) => u.username == name)
  }

  /** `userRepository.findByEmail`. */
  function EmailIndex(users: seq<User>, email: string): (r: Option<UserId>)
    ensures r.Some? ==> r.value < |users| && users[r.value].email == email
    ensures r.None? <==> forall i :: 0 <= i < |users| ==> users[i].email != email
  {
    IndexWhere(users, (u: User) => u.email == email)
  }

  /** No two users share a username or an email. */
  ghost predicate Distinct(users: seq<User>)
  {
    forall i, j :: 0 <= i < j < |users| ==>
      users[i].username != users[j].username && users[i].email != users[j].email
  }

  /** In a store with distinct usernames, the user found by a name is the only one with it. */
  lemma UsernameIndexUnique(users: seq<User>, name: string, k: nat)
    requires Distinct(users) && k < |users| && users[k].username == name
    ensures UsernameIndex(users, name) == Some(k)
  {
  }

  /**
   * The shared body of registerUser and registerAdmin: a taken username is
   * reported first, then a taken email, then a missing role row; otherwise one
   * user holding exactly the role `roleName` is appended.
   */
  function Register(users: seq<User>, roleNames: set<string>, username: string, email: string, password: string, roleName: string): (r: (Result<UserId, UserError>, seq<User>))
    ensures r.0.Failure? ==> r.1 == users
    ensures UsernameIndex(users, username).Some? ==> r.0 == Failure(UsernameTaken)
    ensures UsernameIndex(users, username).None? && EmailIndex(users, email).Some? ==> r.0 == Failure(EmailTaken)
    ensures UsernameIndex(users, username).None? && EmailIndex(users, email).None? && roleName !in roleNames ==>
      r.0 == Failure(RoleNotFound(roleName))
    ensures r.0.Success? <==>
      UsernameIndex(users, username).None? && EmailIndex(users, email).None? && roleName in roleNames
    ensures r.0.Success? ==>
      r.0.value == |users| && r.1 == users + [User(username, email, password, {roleName})]
  {
    if UsernameIndex(users, username).Some? then (Failure(UsernameTaken), users)
    else if EmailIndex(users, email).Some? then (Failure(EmailTaken), users)
    else if roleName !in roleNames then (Failure(RoleNotFound(roleName)), users)
    else (Success(|users|), users + [User(username, email, password, {roleName})])
  }

  /** Registration keeps usernames and emails pairwise distinct. */
  lemma RegisterKeepsDistinct(users: seq<User>, roleNames: set<string>, username: string, email: string, password: string, roleName: string)
    requires Distinct(users)
    ensures Distinct(Register(users, roleNames, username, email, password, roleName).1)
  {
    var r := Register(users, roleNames, username, email, password, roleName);
    if r.0.Success? {
      var s := r.1;
      forall i, j | 0 <= i < j < |s|
        ensures s[i].username != s[j].username && s[i].email != s[j].email
      {
        if j == |users| {
          assert s[i] == users[i];
        }
      }
    }
  }

  /** A request that repeats both a username and an email is reported as a username clash. */
  lemma UsernameCheckedFirst(users: seq<User>, roleNames: set<string>, password: string, roleName: string, i: nat, j: nat)
    requires i < |users| && j < |users|
    ensures Register(users, roleNames, users[i].username, users[j].email, password, roleName).0 == Failure(UsernameTaken)
  {
    assert UsernameIndex(users, users[i].username).Some?;
  }

  /** The user table and the role table's names. */
  class UserStore {
    var users: seq<User>
    var roleNames: set<string>

    ghost predicate Valid()
      reads this
    {
      Distinct(users)
    }

    constructor (roleNames: set<string>)
      ensures Valid() && users == [] && this.roleNames == roleNames
    {
      users := [];
      this.roleNames := roleNames;
    }

    method RegisterUser(username: string, email: string, password: string) returns (r: Result<UserId, UserError>)
      requires Valid()
      modifies this`users
      ensures Valid()
      ensures (r, users) == Register(old(users), roleNames, username, email, password, RoleUser)
    {
      r := Save(username, email, password, RoleUser);
    }

    method RegisterAdmin(username: string, email: string, password: string) returns (r: Result<UserId, UserError>)
      requires Valid()
      modifies this`users
      ensures Valid()
      ensures (r, users) == Register(old(users), roleNames, username, email, password, RoleAdmin)
    {
      r := Save(username, email, password, RoleAdmin);
    }

    method Save(username: string, email: string, password: string, roleName: string) returns (r: Result<UserId, UserError>)
      requires Valid()
      modifies this`users
      ensures Valid()
      ensures (r, users) == Register(old(users), roleNames, username, email, password, roleName)
    {
      if UsernameIndex(users, username).Some? {
        return Failure(UsernameTaken);
      }
      if EmailIndex(users, email).Some? {
        return Failure(EmailTaken);
      }
      if roleName !in roleNames {
        return Failure(RoleNotFound(roleName));
      }
      var user := User(username, email, password, {roleName});
      RegisterKeepsDistinct(users, roleNames, username, email, password, roleName);
      r := Success(|users|);
      users := users + [user];
    }

    /** `findByUsername`: throws for a username nobody registered. */
    function FindByUsername(name: string): (r: Result<UserId, UserError>)
      reads this
      ensures r.Success? ==> r.value < |users| && users[r.value].username == name
      ensures r.Failure? <==> forall i :: 0 <= i < |users| ==> users[i].username != name
      ensures r.Failure? ==> r.error == UserNotFound(name)
    {
      match UsernameIndex(users, name)
      case Some(i) => Success(i)
      case None => Failure(UserNotFound(name))
    }

    /** `findByEmail`: the registered user with this email, if any. */
    function FindByEmail(email: string): (r: Option<UserId>)
      reads this
      ensures r == EmailIndex(users, email)
    {
      EmailIndex(users, email)
    }
  }
}
