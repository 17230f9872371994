/** The in-memory user table that the authentication routes share, the records
    it holds, and the HTTP outcomes of the routes. */
module Registry {
  import Decimal
  import opened Options

  /** A stored user, password included. */
  datatype User = User(id: string, displayName: string, email: string, password: string)

  /** A user as the routes return it: the stored record without its password. */
  datatype PublicUser = PublicUser(id: string, displayName: string, email: string)

  /** The outcome of an authentication route. */
  datatype Response =
    | Ok(user: PublicUser)  // 200, with the user in the body
    | BadRequest            // 400 "All fields are required"
    | Conflict              // 409 "User already exists"
    | Unauthorized          // 401 "Invalid email or password"

  /** Drops the password and keeps every other field. */
  function WithoutPassword(u: User): (p: PublicUser)
    ensures p.id == u.id && p.displayName == u.displayName && p.email == u.email
  {
    PublicUser(u.id, u.displayName, u.email)
  }

  /** What is returned for a user does not depend on the user's password. */
  lemma WithoutPasswordIgnoresPassword(u: User, pw: string)
    ensures WithoutPassword(u) == WithoutPassword(u.(password := pw))
  {
  }

  /** Index of the first user with the given email. */
  function IndexOfEmail(users: seq<User>, email: string): (r: Option<nat>)
    ensures r.Some? ==> r.value < |users| && users[r.value].email == email &&
                        forall j :: 0 <= j < r.value ==> users[j].email != email
    ensures r.None? <==> forall j :: 0 <= j < |users| ==> users[j].email != email
  {
    if users == [] then None
    else if users[0].email == email then Some(0)
    else
      match IndexOfEmail(users[1..], email)
      case None => None
      case Some(k) => Some(k + 1)
  }

  /** Does `u` carry exactly these credentials? */
  predicate Matches(u: User, email: string, password: string) {
    u.email == email && u.password == password
  }

  /** Index of the first user whose email and password both match. */
  function IndexOfCredentials(users: seq<User>, email: string, password: string): (r: Option<nat>)
    ensures r.Some? ==> r.value < |users| && Matches(users[r.value], email, password) &&
                        forall j :: 0 <= j < r.value ==> !Matches(users[j], email, password)
    ensures r.None? <==> forall j :: 0 <= j < |users| ==> !Matches(users[j], email, password)
  {
    if users == [] then None
    else if Matches(users[0], email, password) then Some(0)
    else
      match IndexOfCredentials(users[1..], email, password)
      case None => None
      case Some(k) => Some(k + 1)
  }

  /** No two users share an email. */
  predicate EmailsUnique(users: seq<User>) {
    forall i, j :: 0 <= i < j < |users| ==> users[i].email != users[j].email
  }

  /** The user at position i carries the id `String(i + 1)`, as appending with
      id `users.length + 1` produces. */
  predicate IdsSequential(users: seq<User>) {
    forall i :: 0 <= i < |users| ==> users[i].id == Decimal.NatToString(i + 1)
  }

  /** The record signup appends to `users`. */
  function NewUser(users: seq<User>, name: string, email: string, password: string): (u: User)
    ensures u.id == Decimal.NatToString(|users| + 1) && Decimal.ParseNat(u.id) == |users| + 1
    ensures u.displayName == name && u.email == email && u.password == password
  {
    Decimal.ParseNatToString(|users| + 1);
    User(Decimal.NatToString(|users| + 1), name, email, password)
  }

  /** Appending a user whose email is new keeps emails unique. */
  lemma AppendKeepsEmailsUnique(users: seq<User>, u: User)
    requires EmailsUnique(users)
    requires IndexOfEmail(users, u.email) == None
    ensures EmailsUnique(users + [u])
  {
    var s := users + [u];
    forall i, j | 0 <= i < j < |s| ensures s[i].email != s[j].email {
      if j == |users| {
        assert s[i] == users[i];
      } else {
        assert s[i] == users[i] && s[j] == users[j];
      }
    }
  }

  /** Appending the record signup builds keeps ids sequential. */
  lemma AppendKeepsIdsSequential(users: seq<User>, name: string, email: string, password: string)
    requires IdsSequential(users)
    ensures IdsSequential(users + [NewUser(users, name, email, password)])
  {
    var s := users + [NewUser(users, name, email, password)];
    forall i | 0 <= i < |s| ensures s[i].id == Decimal.NatToString(i + 1) {
      if i < |users| {
        assert s[i] == users[i];
      }
    }
  }

  /** Sequential ids are pairwise distinct. */
  lemma SequentialIdsDistinct(users: seq<User>, i: int, j: int)
    requires IdsSequential(users)
    requires 0 <= i < j < |users|
    ensures users[i].id != users[j].id
  {
    if users[i].id == users[j].id {
      Decimal.NatToStringInjective(i + 1, j + 1);
    }
  }

  /** The shared user table. Its starting contents come from a module that is
      not part of this model, so they are an arbitrary sequence. */
  class Users {
    var users: seq<User>

    constructor (initial: seq<User>)
      ensures users == initial
    {
      users := initial;
    }
  }
}
