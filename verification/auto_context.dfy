/**
  The popup-only auth provider: the same session as the redirect provider without the redirect
  machinery (no pending setup state, no redirect flag). Its handlers are functions over
  `Session`, and `PopupSession` performs them on its fields.
*/
module PopupAuth {
  import opened Common
  import opened Accounts
  import Storage
  import ItemOperations

  /** How `signInWithPopup` ends. */
  datatype PopupReply = PopupUser(identity: Identity) | PopupRejected

  datatype Session = Session(
    user: Option<User>,
    familyID: Option<string>,
    service: ServiceBinding,
    firebaseUser: Option<Identity>,
    isLoading: bool,
    isAuthenticating: bool,
    /** The `lastLoggedInUser` entry of the browser storage. */
    lastLoggedInUser: Option<string>,
    db: Directory)

  function Initial(lastLoggedInUser: Option<string>, db: Directory): Session
  {
    Session(None, None, NoService, None, true, false, lastLoggedInUser, db)
  }

  /** The family binding and the item service agree with the logged-in user. */
  predicate Coherent(s: Session)
  {
    s.familyID == FamilyOf(s.user) && s.service == ServiceFor(s.familyID)
  }

  /** `setUser(u)` followed by `updateFamilyContext(u)`. */
  function LoggedIn(s: Session, u: Option<User>): (r: Session)
    ensures r.user == u && r.familyID == FamilyOf(u) && r.service == ServiceFor(FamilyOf(u))
    ensures r.(user := s.user, familyID := s.familyID, service := s.service) == s
  {
    s.(user := u, familyID := FamilyOf(u), service := ServiceFor(FamilyOf(u)))
  }

  /** The `onAuthStateChanged` handler; `lookupOk` says whether its database lookup succeeds. */
  function AuthStateChanged(s: Session, identity: Option<Identity>, lookupOk: bool): Session
  {
    var s0 := s.(firebaseUser := identity);
    var s1 :=
      match SignedInEmail(identity)
      case Some(email) =>
        if !lookupOk then s0
        else (match UserByEmail(s0.db, email)
              case Some(u) => LoggedIn(s0, Some(u)).(lastLoggedInUser := Some(email))
              case None => s0)
      case None =>
        var last := s0.lastLoggedInUser;
        if last.None? || last.value == "" then s0
        else if !lookupOk then s0.(lastLoggedInUser := None)
        else (match UserByEmail(s0.db, last.value)
              case Some(u) => LoggedIn(s0, Some(u))
              case None => s0);
    s1.(isLoading := false)
  }

  /** `login(username)`: the legacy username login. */
  function Login(s: Session, username: string, lookupOk: bool): (Session, bool)
  {
    var found := if lookupOk then UserByUsername(s.db, username) else None;
    if found.Some? && found.value.familyID != "" then
      var s1 := LoggedIn(s, found);
      ((if found.value.email != "" then s1.(lastLoggedInUser := Some(found.value.email)) else s1).(isLoading := false), true)
    else (s.(isLoading := false), false)
  }

  /** `loginWithGoogle`: a popup sign-in followed by a lookup of its email. */
  function LoginWithGoogle(s: Session, popup: PopupReply, lookupOk: bool): (Session, LoginOutcome)
  {
    var failed := (s.(isAuthenticating := false), LoginOutcome(false, None, None));
    if popup.PopupRejected? then failed
    else
      var email := popup.identity.email;
      if email.None? || email.value == "" || !lookupOk then failed
      else match UserByEmail(s.db, email.value)
        case Some(u) => (LoggedIn(s, Some(u)).(lastLoggedInUser := email, isAuthenticating := false), LoginOutcome(true, None, None))
        case None => (s.(isAuthenticating := false), LoginOutcome(false, Some(true), email))
  }

  /** `createNewFamily`. */
  function CreateNewFamily(s: Session, email: string, familyName: string, username: string,
                           newFamilyID: string, newUserID: string, familyCallOk: bool, userCallOk: bool): (Session, bool)
  {
    if !familyCallOk then (s.(isAuthenticating := false), false)
    else
      var s1 := s.(db := WithFamily(s.db, Family(familyName, newFamilyID)));
      if !userCallOk then (s1.(isAuthenticating := false), false)
      else
        var u := User(username, email, newFamilyID, newUserID);
        (LoggedIn(s1.(db := WithUser(s1.db, u)), Some(u)).(lastLoggedInUser := Some(email), isAuthenticating := false), true)
  }

  /** `joinExistingFamily`. */
  function JoinExistingFamily(s: Session, email: string, familyID: string, username: string,
                              newUserID: string, familyCallOk: bool, userCallOk: bool): (Session, JoinOutcome)
  {
    if !familyCallOk then (s.(isAuthenticating := false), JoinOutcome(false, Some(JoinFailedMessage)))
    else if FamilyById(s.db, familyID).None? then (s.(isAuthenticating := false), JoinOutcome(false, Some(FamilyNotFoundMessage)))
    else if !userCallOk then (s.(isAuthenticating := false), JoinOutcome(false, Some(JoinFailedMessage)))
    else
      var u := User(username, email, familyID, newUserID);
      (LoggedIn(s.(db := WithUser(s.db, u)), Some(u)).(lastLoggedInUser := Some(email), isAuthenticating := false),
       JoinOutcome(true, None))
  }

  /** `logout`: clear the session only when sign-out succeeds. */
  function Logout(s: Session, signOutOk: bool): Session
  {
    if !signOutOk then s
    else LoggedIn(s.(firebaseUser := None), None).(lastLoggedInUser := None)
  }

  // ---------------------------------------------------------------------------
  // Properties
  // ---------------------------------------------------------------------------

  /**
    The listener with a signed-in email logs in the database user of that email and remembers
    it; when there is no such user, or the lookup throws, only the identity and loading state change.
  */
  lemma SignedInListenerOutcomes(s: Session, identity: Identity, lookupOk: bool)
    requires SignedInEmail(Some(identity)).Some?
    ensures var email := identity.email.value;
      var r := AuthStateChanged(s, Some(identity), lookupOk);
      (lookupOk && UserByEmail(s.db, email).Some? ==>
        r.user == UserByEmail(s.db, email) && r.familyID == FamilyOf(r.user) && r.lastLoggedInUser == Some(email))
      && (!lookupOk || UserByEmail(s.db, email).None? ==>
        r == s.(firebaseUser := Some(identity), isLoading := false))
  {
  }

  /**
    Without a signed-in email the listener restores the stored last user when it resolves, keeps a
    stored email that no longer resolves, and removes it only when the lookup throws.
  */
  lemma SignedOutListenerOutcomes(s: Session, identity: Option<Identity>, lookupOk: bool)
    requires SignedInEmail(identity).None?
    requires s.lastLoggedInUser.Some? && s.lastLoggedInUser.value != ""
    ensures var last := s.lastLoggedInUser.value;
      var r := AuthStateChanged(s, identity, lookupOk);
      (lookupOk && UserByEmail(s.db, last).Some? ==>
        r.user == UserByEmail(s.db, last) && r.lastLoggedInUser == s.lastLoggedInUser)
      && (lookupOk && UserByEmail(s.db, last).None? ==> r == s.(firebaseUser := identity, isLoading := false))
      && (!lookupOk ==> r == s.(firebaseUser := identity, isLoading := false, lastLoggedInUser := None))
  {
  }

  /** Every listener call ends loading and records the identity it was given. */
  lemma ListenerEndsLoading(s: Session, identity: Option<Identity>, lookupOk: bool)
    ensures !AuthStateChanged(s, identity, lookupOk).isLoading
    ensures AuthStateChanged(s, identity, lookupOk).firebaseUser == identity
    ensures AuthStateChanged(s, identity, lookupOk).db == s.db
  {
  }

  /**
    `loginWithGoogle` ends with `isAuthenticating` false on every path; it succeeds exactly when
    the popup's email has a database user, and asks for setup with that email otherwise.
  */
  lemma GoogleLoginOutcomes(s: Session, popup: PopupReply, lookupOk: bool)
    ensures var (r, outcome) := LoginWithGoogle(s, popup, lookupOk);
      !r.isAuthenticating
      && (outcome.success <==> popup.PopupUser? && SignedInEmail(Some(popup.identity)).Some? && lookupOk
                               && UserByEmail(s.db, popup.identity.email.value).Some?)
      && (outcome.success ==> r.user == UserByEmail(s.db, popup.identity.email.value)
                              && r.lastLoggedInUser == popup.identity.email)
      && (outcome.needsSetup == Some(true) <==> popup.PopupUser? && SignedInEmail(Some(popup.identity)).Some? && lookupOk
                                                && UserByEmail(s.db, popup.identity.email.value).None?)
      && (!outcome.success ==> r == s.(isAuthenticating := false))
  {
  }

  /** `login` succeeds exactly when the user exists with a family; on failure only `isLoading` changes. */
  lemma LoginSucceedsIffUserHasFamily(s: Session, username: string, lookupOk: bool)
    ensures var (r, ok) := Login(s, username, lookupOk);
      var found := UserByUsername(s.db, username);
      (ok <==> lookupOk && found.Some? && found.value.familyID != "")
      && (ok ==> r.user == found && r.familyID == Some(found.value.familyID))
      && (ok ==> r == LoggedIn(s, found).(isLoading := false,
                                         lastLoggedInUser := if found.value.email != "" then Some(found.value.email)
                                                             else s.lastLoggedInUser))
      && (!ok ==> r == s.(isLoading := false))
      && !r.isLoading
  {
  }

  /** `createNewFamily` binds the new user to the id of the family it has just created. */
  lemma {:induction false} CreateBindsNewFamily(s: Session, email: string, familyName: string, username: string,
                                                newFamilyID: string, newUserID: string)
    requires newFamilyID != ""
    ensures var (r, ok) := CreateNewFamily(s, email, familyName, username, newFamilyID, newUserID, true, true);
      ok && r.familyID == Some(newFamilyID) && r.service == BoundTo(Some(newFamilyID))
      && FamilyById(r.db, newFamilyID) == Some(Family(familyName, newFamilyID))
      && r.lastLoggedInUser == Some(email) && !r.isAuthenticating
  {
    var s1 := s.(db := WithFamily(s.db, Family(familyName, newFamilyID)));
    CreatedFamilyIsFound(s.db, Family(familyName, newFamilyID), newFamilyID);
    assert WithUser(s1.db, User(username, email, newFamilyID, newUserID)).families == s1.db.families;
  }

  /** A failing `createNewFamily` logs nobody in; a family created before the user call failed stays. */
  lemma CreateFailureLogsNobodyIn(s: Session, email: string, familyName: string, username: string,
                                  newFamilyID: string, newUserID: string, familyCallOk: bool, userCallOk: bool)
    requires !familyCallOk || !userCallOk
    ensures var (r, ok) := CreateNewFamily(s, email, familyName, username, newFamilyID, newUserID, familyCallOk, userCallOk);
      !ok && r.user == s.user && r.familyID == s.familyID && r.lastLoggedInUser == s.lastLoggedInUser
      && !r.isAuthenticating
      && (familyCallOk ==> FamilyById(r.db, newFamilyID) == Some(Family(familyName, newFamilyID)))
      && (!familyCallOk ==> r.db == s.db)
  {
  }

  /** `joinExistingFamily` with an unknown family creates no user and changes nothing but `isAuthenticating`. */
  lemma JoinUnknownFamilyChangesNothing(s: Session, email: string, familyID: string, username: string,
                                        newUserID: string, userCallOk: bool)
    requires FamilyById(s.db, familyID).None?
    ensures JoinExistingFamily(s, email, familyID, username, newUserID, true, userCallOk)
      == (s.(isAuthenticating := false), JoinOutcome(false, Some(FamilyNotFoundMessage)))
  {
  }

  /** A successful join binds the new user to the family joined, and a later lookup by email finds that user. */
  lemma {:induction false} JoinBindsFamily(s: Session, email: string, familyID: string, username: string, newUserID: string)
    requires FamilyById(s.db, familyID).Some? && familyID != ""
    requires UserByEmail(s.db, email).None?
    ensures var (r, outcome) := JoinExistingFamily(s, email, familyID, username, newUserID, true, true);
      outcome.success && r.familyID == Some(familyID) && r.service == BoundTo(Some(familyID))
      && r.lastLoggedInUser == Some(email) && UserByEmail(r.db, email) == r.user
  {
    CreatedUserIsFound(s.db, User(username, email, familyID, newUserID));
  }

  /** `logout` clears the session and the stored last user after a successful sign-out, and changes nothing otherwise. */
  lemma LogoutClearsOnlyOnSuccess(s: Session, signOutOk: bool)
    ensures signOutOk ==>
      Logout(s, signOutOk) == s.(user := None, familyID := None, service := NoService, firebaseUser := None, lastLoggedInUser := None)
    ensures !signOutOk ==> Logout(s, signOutOk) == s
  {
  }

  /** The auth-state listener keeps the family binding and the item service in agreement with the logged-in user. */
  lemma ListenerKeepsCoherence(s: Session, identity: Option<Identity>, lookupOk: bool)
    requires Coherent(s)
    ensures Coherent(AuthStateChanged(s, identity, lookupOk))
  {
  }

  /** The login, family and logout handlers keep the family binding and the item service in agreement with the user. */
  lemma HandlersKeepCoherence(s: Session, popup: PopupReply, username: string,
                              email: string, familyName: string, familyID: string, newID: string, newUserID: string,
                              b1: bool, b2: bool)
    requires Coherent(s)
    ensures Coherent(Login(s, username, b1).0)
    ensures Coherent(LoginWithGoogle(s, popup, b1).0)
    ensures Coherent(CreateNewFamily(s, email, familyName, username, newID, newUserID, b1, b2).0)
    ensures Coherent(JoinExistingFamily(s, email, familyID, username, newUserID, b1, b2).0)
    ensures Coherent(Logout(s, b1))
  {
  }

  // ---------------------------------------------------------------------------
  // The provider as a class
  // ---------------------------------------------------------------------------

  class PopupSession {
    var user: Option<User>
    var familyID: Option<string>
    var service: ItemOperations.ItemOperationsService?
    var firebaseUser: Option<Identity>
    var isLoading: bool
    var isAuthenticating: bool
    var lastLoggedInUser: Option<string>
    var db: Directory
    /** The store a newly created item service writes to. */
    const store: Storage.ItemStore

    ghost function View(): Session
      reads this, service
    {
      Session(user, familyID, if service == null then NoService else BoundTo(service.familyID),
              firebaseUser, isLoading, isAuthenticating, lastLoggedInUser, db)
    }

    constructor (store: Storage.ItemStore, lastLoggedInUser: Option<string>, db: Directory)
      ensures View() == Initial(lastLoggedInUser, db) && this.store == store
    {
      this.store := store;
      user := None;
      familyID := None;
      service := null;
      firebaseUser := None;
      isLoading := true;
      isAuthenticating := false;
      this.lastLoggedInUser := lastLoggedInUser;
      this.db := db;
    }

    /** `setUser` and `updateFamilyContext`: retarget the existing service, or create one, or drop it. */
    method SetUser(newUser: Option<User>)
      modifies this, service
      ensures View() == LoggedIn(old(View()), newUser)
      ensures FamilyOf(newUser).Some? && old(service) != null ==> service == old(service)
      ensures FamilyOf(newUser).Some? && old(service) == null ==> fresh(service)
    {
      user := newUser;
      if newUser.Some? && newUser.value.familyID != "" {
        familyID := Some(newUser.value.familyID);
        if service != null {
          service.UpdateFamilyID(newUser.value.familyID);
        } else {
          service := new ItemOperations.ItemOperationsService(store, Some(newUser.value.familyID));
        }
      } else {
        familyID := None;
        service := null;
      }
    }

    /** The `onAuthStateChanged` handler. */
    method OnAuthStateChanged(identity: Option<Identity>, lookupOk: bool)
      modifies this, service
      ensures View() == AuthStateChanged(old(View()), identity, lookupOk)
    {
      firebaseUser := identity;
      var email := SignedInEmail(identity);
      if email.Some? {
        if lookupOk {
          var existingUser := UserByEmail(db, email.value);
          if existingUser.Some? {
            SetUser(existingUser);
            lastLoggedInUser := email;
          }
        }
      } else {
        var lastUserEmail := lastLoggedInUser;
        if lastUserEmail.Some? && lastUserEmail.value != "" {
          if lookupOk {
            var lastUser := UserByEmail(db, lastUserEmail.value);
            if lastUser.Some? {
              SetUser(lastUser);
            }
          } else {
            lastLoggedInUser := None;
          }
        }
      }
      isLoading := false;
    }

    /** `login`. */
    method LoginByUsername(username: string, lookupOk: bool) returns (ok: bool)
      modifies this, service
      ensures (View(), ok) == Login(old(View()), username, lookupOk)
    {
      isLoading := true;
      ok := false;
      if lookupOk {
        var foundUser := UserByUsername(db, username);
        if foundUser.Some? && foundUser.value.familyID != "" {
          SetUser(foundUser);
          if foundUser.value.email != "" {
            lastLoggedInUser := Some(foundUser.value.email);
          }
          ok := true;
        }
      }
      isLoading := false;
    }

    /** `loginWithGoogle`. */
    method LoginWithGoogleAccount(popup: PopupReply, lookupOk: bool) returns (outcome: LoginOutcome)
      modifies this, service
      ensures (View(), outcome) == LoginWithGoogle(old(View()), popup, lookupOk)
    {
      isAuthenticating := true;
      outcome := LoginOutcome(false, None, None);
      if popup.PopupUser? {
        var email := popup.identity.email;
        if email.Some? && email.value != "" && lookupOk {
          var existingUser := UserByEmail(db, email.value);
          if existingUser.Some? {
            SetUser(existingUser);
            lastLoggedInUser := email;
            outcome := LoginOutcome(true, None, None);
          } else {
            outcome := LoginOutcome(false, Some(true), email);
          }
        }
      }
      isAuthenticating := false;
    }

    /** `createNewFamily`. */
    method CreateFamily(email: string, familyName: string, username: string, newFamilyID: string, newUserID: string,
                        familyCallOk: bool, userCallOk: bool) returns (ok: bool)
      modifies this, service
      ensures (View(), ok) == CreateNewFamily(old(View()), email, familyName, username, newFamilyID, newUserID, familyCallOk, userCallOk)
    {
      isAuthenticating := true;
      ok := false;
      if familyCallOk {
        var newFamily := Family(familyName, newFamilyID);
        db := WithFamily(db, newFamily);
        if userCallOk {
          var newUser := User(username, email, newFamily.familyID, newUserID);
          db := WithUser(db, newUser);
          SetUser(Some(newUser));
          lastLoggedInUser := Some(email);
          ok := true;
        }
      }
      isAuthenticating := false;
    }

    /** `joinExistingFamily`. */
    method JoinFamily(email: string, familyID: string, username: string, newUserID: string,
                      familyCallOk: bool, userCallOk: bool) returns (outcome: JoinOutcome)
      modifies this, service
      ensures (View(), outcome) == JoinExistingFamily(old(View()), email, familyID, username, newUserID, familyCallOk, userCallOk)
    {
      isAuthenticating := true;
      if !familyCallOk {
        outcome := JoinOutcome(false, Some(JoinFailedMessage));
      } else if FamilyById(db, familyID).None? {
        outcome := JoinOutcome(false, Some(FamilyNotFoundMessage));
      } else if !userCallOk {
        outcome := JoinOutcome(false, Some(JoinFailedMessage));
      } else {
        var newUser := User(username, email, familyID, newUserID);
        db := WithUser(db, newUser);
        SetUser(Some(newUser));
        lastLoggedInUser := Some(email);
        outcome := JoinOutcome(true, None);
      }
      isAuthenticating := false;
    }

    /** `logout`. */
    method SignOut(signOutOk: bool)
      modifies this, service
      ensures View() == Logout(old(View()), signOutOk)
    {
      if signOutOk {
        firebaseUser := None;
        SetUser(None);
        lastLoggedInUser := None;
      }
    }
  }
}
