/**
  What both auth providers know about accounts: the user and family records, the signed-in
  identity, the user/family database the providers query (its code is not part of this model,
  so it is a value: a list of users and a map of families), and the family binding of a user.
*/
module Accounts {
  import opened Common

  datatype User = User(username: string, email: string, familyID: string, userID: string)

  /** A family record; the `users` list of the family type is not used by the providers and is left out. */
  datatype Family = Family(familyname: string, familyID: string)

  /** A signed-in identity (the auth provider's user object); its email may be null. */
  datatype Identity = Identity(uid: string, email: Option<string>)

  datatype Directory = Directory(users: seq<User>, families: map<string, Family>)

  /** What the item service of a session is bound to: no service, or a service for a family. */
  datatype ServiceBinding = NoService | BoundTo(familyID: Option<string>)

  /** What `handleGoogleAuthResult` and `loginWithGoogle` return. */
  datatype LoginOutcome = LoginOutcome(success: bool, needsSetup: Option<bool>, email: Option<string>)

  /** What `joinExistingFamily` returns. */
  datatype JoinOutcome = JoinOutcome(success: bool, error: Option<string>)

  /** Why `handleGoogleAuthResult` throws: the identity has no email, or the database call rejected. */
  datatype AuthFault = NoEmail | CallFailed

  const FamilyNotFoundMessage := "Family not found. Please check the Family ID."
  const JoinFailedMessage := "Failed to join family. Please try again."

  /** `firebaseUser?.email` as a condition: the email when there is an identity with a non-empty one. */
  function SignedInEmail(identity: Option<Identity>): (r: Option<string>)
    ensures r.Some? <==> identity.Some? && identity.value.email.Some? && identity.value.email.value != ""
    ensures r.Some? ==> r.value == identity.value.email.value
  {
    if identity.Some? && identity.value.email.Some? && identity.value.email.value != "" then identity.value.email
    else None
  }

  /** The first user satisfying `p`, as a query with a single result returns it. */
  function FirstUser(users: seq<User>, p: User -> bool): (r: Option<User>)
    ensures r.None? <==> forall i :: 0 <= i < |users| ==> !p(users[i])
    ensures r.Some? ==> exists i :: 0 <= i < |users| && users[i] == r.value && p(users[i])
                                    && forall j :: 0 <= j < i ==> !p(users[j])
  {
    if users == [] then None
    else if p(users[0]) then Some(users[0])
    else
      var rest := FirstUser(users[1..], p);
      assert rest.Some? ==> exists i :: 1 <= i < |users| && users[i] == rest.value && p(users[i])
                                        && forall j :: 0 <= j < i ==> !p(users[j]) by {
        if rest.Some? {
          var k :| 0 <= k < |users[1..]| && users[1..][k] == rest.value && p(users[1..][k])
                   && forall j :: 0 <= j < k ==> !p(users[1..][j]);
          assert users[k + 1] == rest.value;
          forall j | 0 <= j < k + 1
            ensures !p(users[j])
          {
            if j > 0 {
              assert users[j] == users[1..][j - 1];
            }
          }
        }
      }
      rest
  }

  /** `getUserByEmail`. */
  function UserByEmail(db: Directory, email: string): (r: Option<User>)
    ensures r.Some? ==> r.value in db.users && r.value.email == email
    ensures r.None? <==> forall i :: 0 <= i < |db.users| ==> db.users[i].email != email
  {
    FirstUser(db.users, (u: User) => u.email == email)
  }

  /** `getUserByUsername`. */
  function UserByUsername(db: Directory, username: string): (r: Option<User>)
    ensures r.Some? ==> r.value in db.users && r.value.username == username
    ensures r.None? <==> forall i :: 0 <= i < |db.users| ==> db.users[i].username != username
  {
    FirstUser(db.users, (u: User) => u.username == username)
  }

  /** `getFamilyById`. */
  function FamilyById(db: Directory, familyID: string): (r: Option<Family>)
    ensures r.Some? <==> familyID in db.families
  {
    if familyID in db.families then Some(db.families[familyID]) else None
  }

  /** The database after `createFamily` stored `family` under its id. */
  function WithFamily(db: Directory, family: Family): Directory
  {
    db.(families := db.families[family.familyID := family])
  }

  /** The database after `createUser` stored `user`. */
  function WithUser(db: Directory, user: User): Directory
  {
    db.(users := db.users + [user])
  }

  /** A user created for an email nobody has yet is what a later lookup by that email finds. */
  lemma {:induction false} CreatedUserIsFound(db: Directory, user: User)
    requires UserByEmail(db, user.email).None?
    ensures UserByEmail(WithUser(db, user), user.email) == Some(user)
  {
    var users := db.users + [user];
    assert users[|db.users|] == user;
    var found := UserByEmail(WithUser(db, user), user.email);
    var i :| 0 <= i < |users| && users[i] == found.value && users[i].email == user.email
             && forall j :: 0 <= j < i ==> users[j].email != user.email;
    assert forall j :: 0 <= j < |db.users| ==> users[j] == db.users[j];
  }

  /** A created family is what a later lookup by its id finds; other families are untouched. */
  lemma CreatedFamilyIsFound(db: Directory, family: Family, other: string)
    ensures FamilyById(WithFamily(db, family), family.familyID) == Some(family)
    ensures other != family.familyID ==> FamilyById(WithFamily(db, family), other) == FamilyById(db, other)
  {
  }

  /** `updateFamilyContext`'s test `newUser?.familyID`: the family a user binds, if it is non-empty. */
  function FamilyOf(user: Option<User>): (r: Option<string>)
    ensures r.Some? <==> user.Some? && user.value.familyID != ""
    ensures r.Some? ==> r.value == user.value.familyID
  {
    if user.Some? && user.value.familyID != "" then Some(user.value.familyID) else None
  }

  /** The item service that goes with a family binding: one for that family, or none. */
  function ServiceFor(familyID: Option<string>): (r: ServiceBinding)
    ensures r.NoService? <==> familyID.None?
    ensures r.BoundTo? ==> r.familyID == familyID
  {
    if familyID.Some? then BoundTo(familyID) else NoService
  }
}
