/** The registry decision of the login route: the first user whose email and
    password both match, returned without its password. A field missing from
    the request is `None`; it equals no stored string, so it matches nobody. */
module LoginRoute {
  import opened Options
  import opened Registry
  import SignupRoute

  function Post(users: seq<User>, email: Option<string>, password: Option<string>): (r: Response)
    ensures r.Ok? <==> email.Some? && password.Some? &&
                       exists i :: 0 <= i < |users| && Matches(users[i], email.value, password.value)
    ensures r.Ok? ==> exists i :: 0 <= i < |users| && Matches(users[i], email.value, password.value) &&
                                  r.user == WithoutPassword(users[i]) &&
                                  forall j :: 0 <= j < i ==> !Matches(users[j], email.value, password.value)
    ensures !r.Ok? ==> r == Unauthorized
  {
    if email.None? || password.None? then Unauthorized
    else
      match IndexOfCredentials(users, email.value, password.value)
      case None => Unauthorized
      case Some(k) => Ok(WithoutPassword(users[k]))
  }

  /** A request without an email or without a password logs nobody in, even
      when some stored user has an empty email or password. */
  lemma MissingFieldIsUnauthorized(users: seq<User>, email: Option<string>, password: Option<string>)
    requires email.None? || password.None?
    ensures Post(users, email, password) == Unauthorized
  {
  }

  /** Round trip: once signup has appended a user (its email was new), logging in
      with that email and password returns exactly that user. */
  lemma SignupThenLogin(users: seq<User>, name: string, email: string, password: string)
    requires IndexOfEmail(users, email) == None
    ensures Post(users + [NewUser(users, name, email, password)], Some(email), Some(password))
            == Ok(WithoutPassword(NewUser(users, name, email, password)))
  {
    var u := NewUser(users, name, email, password);
    var s := users + [u];
    assert Matches(s[|users|], email, password);
    forall j | 0 <= j < |users| ensures !Matches(s[j], email, password) {
      assert s[j] == users[j];
    }
  }

  /** Appending a user with a different email changes nobody's login outcome. */
  lemma {:induction false} LoginUnaffectedByOtherSignup(users: seq<User>, u: User, email: string, password: Option<string>)
    requires u.email != email
    ensures Post(users + [u], Some(email), password) == Post(users, Some(email), password)
  {
    if users != [] {
      assert (users + [u])[1..] == users[1..] + [u];
      LoginUnaffectedByOtherSignup(users[1..], u, email, password);
    }
  }

  /** With unique emails, the user registered under an email logs in with
      its password and nobody else's. */
  lemma LoginFindsRegisteredUser(users: seq<User>, k: int, password: string)
    requires EmailsUnique(users)
    requires 0 <= k < |users|
    ensures Post(users, Some(users[k].email), Some(password)).Ok? <==> users[k].password == password
    ensures users[k].password == password ==>
              Post(users, Some(users[k].email), Some(password)) == Ok(WithoutPassword(users[k]))
  {
  }

  /** Signing up and then logging in, on the shared table. */
  method SignupAndLogin(db: Users, name: string, email: string, password: string)
    returns (signedUp: Response, loggedIn: Response)
    modifies db
    ensures db.users == if signedUp.Ok? then old(db.users) + [NewUser(old(db.users), name, email, password)]
                        else old(db.users)
    ensures signedUp.Ok? <==> SignupRoute.FieldsGiven(name, email, password) && IndexOfEmail(old(db.users), email).None?
    ensures signedUp.Ok? ==> signedUp == Ok(WithoutPassword(NewUser(old(db.users), name, email, password)))
    ensures signedUp.Ok? ==> loggedIn == signedUp
    ensures loggedIn == Post(db.users, Some(email), Some(password))
  {
    ghost var before := db.users;
    signedUp := SignupRoute.Post(db, name, email, password);
    if signedUp.Ok? {
      SignupThenLogin(before, name, email, password);
    }
    loggedIn := Post(db.users, Some(email), Some(password));
  }
}
