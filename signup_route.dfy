/** The registry decision of the sign-up route: check the fields, reject an
    email that is already registered, append the new user and return it
    without its password. */
module SignupRoute {
  import Decimal
  import opened Registry

  /** Are all three fields present and non-empty? */
  predicate FieldsGiven(name: string, email: string, password: string) {
    name != "" && email != "" && password != ""
  }

  method Post(db: Users, name: string, email: string, password: string) returns (r: Response)
    modifies db
    ensures !FieldsGiven(name, email, password) ==> r == BadRequest && db.users == old(db.users)
    ensures FieldsGiven(name, email, password) && IndexOfEmail(old(db.users), email).Some? ==>
              r == Conflict && db.users == old(db.users)
    ensures FieldsGiven(name, email, password) && IndexOfEmail(old(db.users), email).None? ==>
              && db.users == old(db.users) + [User(Decimal.NatToString(|old(db.users)| + 1), name, email, password)]
              && r == Ok(PublicUser(Decimal.NatToString(|old(db.users)| + 1), name, email))
    ensures r.Ok? || r == BadRequest || r == Conflict
    ensures EmailsUnique(old(db.users)) ==> EmailsUnique(db.users)
    ensures IdsSequential(old(db.users)) ==> IdsSequential(db.users)
  {
    if !FieldsGiven(name, email, password) {
      return BadRequest;
    }
    var existing := IndexOfEmail(db.users, email);
    if existing.Some? {
      return Conflict;
    }
    var newUser := NewUser(db.users, name, email, password);
    ghost var before := db.users;
    db.users := db.users + [newUser];
    if EmailsUnique(before) {
      AppendKeepsEmailsUnique(before, newUser);
    }
    if IdsSequential(before) {
      AppendKeepsIdsSequential(before, name, email, password);
    }
    r := Ok(WithoutPassword(newUser));
  }
}
