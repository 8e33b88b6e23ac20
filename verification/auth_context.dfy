/**
  The redirect-capable auth provider (`AuthProvider` of the redirect version): the session it
  holds, the browser storage keys it reads and writes, and its event handlers, each taken as one
  atomic step. Every remote call (`getRedirectResult`, `signInWithPopup`, `signInWithRedirect`,
  the database calls, `signOut`) is an input saying how that call ends.

  `Session` is the provider's state as a value and each handler is first a function from the old
  session to the new one; `RedirectSession` is the provider as a class whose methods perform the
  same steps on its fields and are proved to end in the state that function describes.
*/
module RedirectAuth {
  import opened Common
  import opened Accounts
  import Storage
  import ItemOperations

  /** The setup request kept while a signed-in identity has no database user. */
  datatype PendingAuth = PendingAuth(needsSetup: Option<bool>, email: Option<string>)

  /** The browser storage keys the provider uses; the stored pending state is kept as the value it encodes. */
  datatype LocalStorage = LocalStorage(
    lastLoggedInUser: Option<string>,
    pendingRedirectAuth: Option<PendingAuth>,
    firebaseAuthRedirect: Option<string>)

  /** How `getRedirectResult` ends: no result (null), a result with a user, or a rejection. */
  datatype RedirectReply = NoRedirectResult | RedirectUser(identity: Identity) | RedirectRejected

  /** How `signInWithPopup` ends. */
  datatype PopupReply = PopupUser(identity: Identity) | PopupRejected

  /**
    One call of the auth-state listener: the identity it reports, how its `getRedirectResult`
    call ends, whether the URL carries the provider's redirect parameters, and whether its
    database lookup succeeds.
  */
  datatype AuthEvent = AuthEvent(
    identity: Option<Identity>,
    redirect: RedirectReply,
    urlHasAuthParams: bool,
    lookupOk: bool)

  datatype Session = Session(
    user: Option<User>,
    familyID: Option<string>,
    service: ServiceBinding,
    firebaseUser: Option<Identity>,
    pendingRedirectAuth: Option<PendingAuth>,
    isLoading: bool,
    isAuthenticating: bool,
    isProcessingRedirect: bool,
    redirectProcessed: bool,
    storage: LocalStorage,
    db: Directory)

  /** The session a provider starts with, over a given storage and database. */
  function Initial(storage: LocalStorage, db: Directory): Session
  {
    Session(None, None, NoService, None, None, true, false, false, false, storage, db)
  }

  /** The family binding and the item service agree with the logged-in user. */
  predicate Coherent(s: Session)
  {
    s.familyID == FamilyOf(s.user) && s.service == ServiceFor(s.familyID)
  }

  const RedirectFlag := "true"

  /** `isLikelyRedirectResult`: redirect parameters in the URL, or the stored redirect flag. */
  function IsLikelyRedirectResult(urlHasAuthParams: bool, storage: LocalStorage): (r: bool)
    ensures r <==> urlHasAuthParams || storage.firebaseAuthRedirect == Some(RedirectFlag)
  {
    urlHasAuthParams || storage.firebaseAuthRedirect == Some(RedirectFlag)
  }

  // ---------------------------------------------------------------------------
  // Steps shared by several handlers
  // ---------------------------------------------------------------------------

  /** `updateFamilyContext`: bind the family of `newUser` and a service for it, or clear both. */
  function WithFamilyContext(s: Session, newUser: Option<User>): (r: Session)
    ensures r.familyID == FamilyOf(newUser) && r.service == ServiceFor(FamilyOf(newUser))
    ensures r.(familyID := s.familyID, service := s.service) == s
  {
    s.(familyID := FamilyOf(newUser), service := ServiceFor(FamilyOf(newUser)))
  }

  /** `setUser(u)` followed by `updateFamilyContext(u)`. */
  function LoggedIn(s: Session, u: User): Session
  {
    WithFamilyContext(s.(user := Some(u)), Some(u))
  }

  function StoreLastUser(s: Session, email: string): Session
  {
    s.(storage := s.storage.(lastLoggedInUser := Some(email)))
  }

  function ClearLastUser(s: Session): Session
  {
    s.(storage := s.storage.(lastLoggedInUser := None))
  }

  /** `setPendingRedirectAuth(null)` with `clearRedirectAuthState()`. */
  function ClearPending(s: Session): Session
  {
    s.(pendingRedirectAuth := None, storage := s.storage.(pendingRedirectAuth := None))
  }

  /** `setPendingRedirectAuth(p)` with `storeRedirectAuthState(p)`. */
  function StorePending(s: Session, p: PendingAuth): Session
  {
    s.(pendingRedirectAuth := Some(p), storage := s.storage.(pendingRedirectAuth := Some(p)))
  }

  /** `handleGoogleAuthResult`: map an identity to a database user and log that user in. */
  function GoogleAuthResult(s: Session, identity: Identity, lookupOk: bool): Result<(Session, LoginOutcome), AuthFault>
  {
    if identity.email.None? || identity.email.value == "" then Failure(NoEmail)
    else if !lookupOk then Failure(CallFailed)
    else
      var email := identity.email.value;
      match UserByEmail(s.db, email)
      case Some(u) => Success((StoreLastUser(LoggedIn(s, u), email), LoginOutcome(true, None, None)))
      case None => Success((s, LoginOutcome(false, Some(true), Some(email))))
  }

  /** What both redirect branches do with the result of `handleGoogleAuthResult`. */
  function RecordOutcome(s: Session, outcome: LoginOutcome): Session
  {
    if outcome.success then ClearPending(s)
    else if outcome.needsSetup == Some(true) then StorePending(s, PendingAuth(Some(true), outcome.email))
    else s
  }

  // ---------------------------------------------------------------------------
  // Handlers
  // ---------------------------------------------------------------------------

  /**
    The part both redirect branches share: run `handleGoogleAuthResult` and record its outcome,
    then reset `isProcessingRedirect`; when the call throws, the reset is skipped.
  */
  function AuthResultRecorded(s: Session, identity: Identity, lookupOk: bool): Session
  {
    match GoogleAuthResult(s, identity, lookupOk)
    case Failure(_) => s
    case Success((s1, outcome)) => RecordOutcome(s1, outcome).(isProcessingRedirect := false)
  }

  /**
    `handleRedirect`: process a redirect result. It marks the redirect processed but never reads
    that mark, so a result the listener has already handled is looked up again; it does not
    remove the stored redirect flag.
  */
  function RedirectStep(s: Session, reply: RedirectReply, lookupOk: bool): Session
  {
    match reply
    case RedirectUser(identity) =>
      AuthResultRecorded(s.(redirectProcessed := true, isProcessingRedirect := true, firebaseUser := Some(identity)),
                         identity, lookupOk)
    case _ => s
  }

  /** The listener's branch for an identity with an email. */
  function SignedInEvent(s: Session, identity: Identity, email: string, ev: AuthEvent): Session
  {
    if ev.redirect.RedirectRejected? then s.(isAuthenticating := false)
    else if ev.redirect.RedirectUser? || IsLikelyRedirectResult(ev.urlHasAuthParams, s.storage) then
      AuthResultRecorded(s.(redirectProcessed := true, isProcessingRedirect := true, isAuthenticating := false,
                            storage := s.storage.(firebaseAuthRedirect := None)),
                         identity, ev.lookupOk)
    else DirectSignIn(s, email, ev.lookupOk)
  }

  /** The listener's branch for an identity outside a redirect: look the email up. */
  function DirectSignIn(s: Session, email: string, lookupOk: bool): Session
  {
    if !lookupOk then s.(isAuthenticating := false)
    else
      match UserByEmail(s.db, email)
      case Some(u) => ClearPending(StoreLastUser(LoggedIn(s, u), email))
      case None =>
        var stored := s.storage.pendingRedirectAuth;
        if stored.Some? && stored.value.email == Some(email) then s.(pendingRedirectAuth := stored)
        else s.(pendingRedirectAuth := Some(PendingAuth(Some(true), Some(email))))
  }

  /** The listener's branch without an identity (or with an identity lacking an email). */
  function SignedOutEvent(s: Session, lookupOk: bool): Session
  {
    var s1 := ClearPending(s);
    var last := s1.storage.lastLoggedInUser;
    if last.None? || last.value == "" then s1
    else if !lookupOk then ClearLastUser(s1)
    else match UserByEmail(s1.db, last.value)
      case Some(u) => LoggedIn(s1, u)
      case None => ClearLastUser(s1)
  }

  /** The `onAuthStateChanged` handler. */
  function AuthStateChanged(s: Session, ev: AuthEvent): Session
  {
    var s0 := s.(firebaseUser := ev.identity);
    if s.redirectProcessed then s0
    else
      var s1 := match SignedInEmail(ev.identity)
        case Some(email) => SignedInEvent(s0, ev.identity.value, email, ev)
        case None => SignedOutEvent(s0, ev.lookupOk);
      s1.(isLoading := false)
  }

  /** `login(username)`: the legacy username login. */
  function Login(s: Session, username: string, lookupOk: bool): (Session, bool)
  {
    if !lookupOk then (s.(isLoading := false), false)
    else match UserByUsername(s.db, username)
      case Some(u) =>
        if u.familyID != "" then
          var s1 := LoggedIn(s, u);
          ((if u.email != "" then StoreLastUser(s1, u.email) else s1).(isLoading := false), true)
        else (s.(isLoading := false), false)
      case None => (s.(isLoading := false), false)
  }

  /** The catch block of `loginWithGoogle`. */
  function GoogleLoginFailed(s: Session): Session
  {
    s.(isAuthenticating := false, storage := s.storage.(firebaseAuthRedirect := None))
  }

  /** `loginWithGoogle`: a redirect on mobile devices, a popup elsewhere. */
  function LoginWithGoogle(s: Session, isMobile: bool, redirectOk: bool, popup: PopupReply, lookupOk: bool): (Session, LoginOutcome)
  {
    if isMobile then RedirectLogin(s.(isAuthenticating := true), redirectOk)
    else PopupLogin(s.(isAuthenticating := true), popup, lookupOk)
  }

  /** The mobile branch of `loginWithGoogle`: set the redirect flag, clear the pending state, start the redirect. */
  function RedirectLogin(s: Session, redirectOk: bool): (Session, LoginOutcome)
  {
    var s1 := ClearPending(s.(storage := s.storage.(firebaseAuthRedirect := Some(RedirectFlag))));
    if redirectOk then (s1, LoginOutcome(false, Some(false), None))
    else (GoogleLoginFailed(s1), LoginOutcome(false, None, None))
  }

  /** The desktop branch of `loginWithGoogle`: a popup sign-in handed to `handleGoogleAuthResult`. */
  function PopupLogin(s: Session, popup: PopupReply, lookupOk: bool): (Session, LoginOutcome)
  {
    match popup
    case PopupRejected => (GoogleLoginFailed(s), LoginOutcome(false, None, None))
    case PopupUser(identity) =>
      match GoogleAuthResult(s, identity, lookupOk)
      case Failure(_) => (GoogleLoginFailed(s), LoginOutcome(false, None, None))
      case Success((s1, outcome)) => (s1.(isAuthenticating := false), outcome)
  }

  /** `createNewFamily`: create a family (with the id the database assigns) and a user bound to it. */
  function CreateNewFamily(s: Session, email: string, familyName: string, username: string,
                           newFamilyID: string, newUserID: string, familyCallOk: bool, userCallOk: bool): (Session, bool)
  {
    if !familyCallOk then (s.(isAuthenticating := false), false)
    else
      var s1 := s.(db := WithFamily(s.db, Family(familyName, newFamilyID)));
      if !userCallOk then (s1.(isAuthenticating := false), false)
      else
        var u := User(username, email, newFamilyID, newUserID);
        var s2 := s1.(db := WithUser(s1.db, u));
        (ClearPending(StoreLastUser(LoggedIn(s2, u), email)).(isAuthenticating := false), true)
  }

  /** `joinExistingFamily`: create a user in an existing family. */
  function JoinExistingFamily(s: Session, email: string, familyID: string, username: string,
                              newUserID: string, familyCallOk: bool, userCallOk: bool): (Session, JoinOutcome)
  {
    if !familyCallOk then (s.(isAuthenticating := false), JoinOutcome(false, Some(JoinFailedMessage)))
    else if FamilyById(s.db, familyID).None? then (s.(isAuthenticating := false), JoinOutcome(false, Some(FamilyNotFoundMessage)))
    else if !userCallOk then (s.(isAuthenticating := false), JoinOutcome(false, Some(JoinFailedMessage)))
    else
      var u := User(username, email, familyID, newUserID);
      var s1 := s.(db := WithUser(s.db, u));
      (ClearPending(StoreLastUser(LoggedIn(s1, u), email)).(isAuthenticating := false), JoinOutcome(true, None))
  }

  /** `logout`: clear the session only when sign-out succeeds. */
  function Logout(s: Session, signOutOk: bool): Session
  {
    if !signOutOk then s
    else ClearPending(ClearLastUser(WithFamilyContext(s.(user := None, firebaseUser := None), None)))
  }

  // ---------------------------------------------------------------------------
  // Properties
  // ---------------------------------------------------------------------------

  /**
    `handleGoogleAuthResult`: no email is an error; a database match logs the user in, binds the
    family and stores the email as last user; no match asks for setup and changes nothing.
  */
  lemma GoogleAuthResultOutcomes(s: Session, identity: Identity, lookupOk: bool)
    ensures identity.email.None? || identity.email == Some("") ==> GoogleAuthResult(s, identity, lookupOk) == Failure(NoEmail)
    ensures SignedInEmail(Some(identity)).Some? && !lookupOk ==> GoogleAuthResult(s, identity, lookupOk) == Failure(CallFailed)
    ensures SignedInEmail(Some(identity)).Some? && lookupOk ==>
      var email := identity.email.value;
      var r := GoogleAuthResult(s, identity, lookupOk);
      r.Success?
      && (UserByEmail(s.db, email).Some? ==>
            r.value.1 == LoginOutcome(true, None, None)
            && r.value.0.user == UserByEmail(s.db, email)
            && r.value.0.familyID == FamilyOf(r.value.0.user)
            && r.value.0.storage.lastLoggedInUser == Some(email)
            && r.value.0 == WithFamilyContext(s.(user := r.value.0.user), r.value.0.user)
                              .(storage := s.storage.(lastLoggedInUser := Some(email))))
      && (UserByEmail(s.db, email).None? ==>
            r.value == (s, LoginOutcome(false, Some(true), Some(email))))
  {
  }

  /** `updateFamilyContext`: a user with a non-empty family id binds it and a service for it; otherwise both are cleared. */
  lemma FamilyContextBindsOrClears(s: Session, newUser: Option<User>)
    ensures newUser.Some? && newUser.value.familyID != "" ==>
      WithFamilyContext(s, newUser).familyID == Some(newUser.value.familyID)
      && WithFamilyContext(s, newUser).service == BoundTo(Some(newUser.value.familyID))
    ensures newUser.None? || newUser.value.familyID == "" ==>
      WithFamilyContext(s, newUser).familyID.None? && WithFamilyContext(s, newUser).service == NoService
  {
  }

  /** Once a redirect has been processed, an auth-state event only records the identity: no lookup, no loading change. */
  lemma ProcessedEventsOnlyTrackIdentity(s: Session, ev: AuthEvent)
    requires s.redirectProcessed
    ensures AuthStateChanged(s, ev) == s.(firebaseUser := ev.identity)
  {
  }

  /**
    The listener's redirect branch marks the redirect as processed and removes the stored
    redirect flag before the lookup, so it is gone whatever the lookup does.
  */
  lemma ListenerRedirectBranchRemovesFlag(s: Session, ev: AuthEvent)
    requires !s.redirectProcessed && SignedInEmail(ev.identity).Some?
    requires ev.redirect.RedirectUser? || (!ev.redirect.RedirectRejected? && IsLikelyRedirectResult(ev.urlHasAuthParams, s.storage))
    ensures AuthStateChanged(s, ev).redirectProcessed
    ensures AuthStateChanged(s, ev).storage.firebaseAuthRedirect.None?
    ensures !AuthStateChanged(s, ev).isAuthenticating && !AuthStateChanged(s, ev).isLoading
  {
  }

  /** `handleRedirect` never touches the stored redirect flag. */
  lemma RedirectStepKeepsFlag(s: Session, reply: RedirectReply, lookupOk: bool)
    ensures RedirectStep(s, reply, lookupOk).storage.firebaseAuthRedirect == s.storage.firebaseAuthRedirect
  {
  }

  /**
    When `handleGoogleAuthResult` throws inside `handleRedirect` (no email, or a failed lookup),
    `isProcessingRedirect` is left true: the reset after the call is never reached.
  */
  lemma RedirectFailureLeavesProcessing(s: Session, identity: Identity, lookupOk: bool)
    requires SignedInEmail(Some(identity)).None? || !lookupOk
    ensures RedirectStep(s, RedirectUser(identity), lookupOk).isProcessingRedirect
    ensures RedirectStep(s, RedirectUser(identity), lookupOk).redirectProcessed
    ensures RedirectStep(s, RedirectUser(identity), lookupOk).user == s.user
  {
  }

  /** A successful `handleRedirect` ends with `isProcessingRedirect` false and the user or the setup request recorded. */
  lemma RedirectSuccessRecordsOutcome(s: Session, identity: Identity)
    requires SignedInEmail(Some(identity)).Some?
    ensures var r := RedirectStep(s, RedirectUser(identity), true);
      var email := identity.email.value;
      !r.isProcessingRedirect && r.redirectProcessed && r.firebaseUser == Some(identity)
      && (UserByEmail(s.db, email).Some? ==> r.user == UserByEmail(s.db, email) && r.pendingRedirectAuth.None?)
      && (UserByEmail(s.db, email).None? ==>
            r.pendingRedirectAuth == Some(PendingAuth(Some(true), Some(email)))
            && r.storage.pendingRedirectAuth == r.pendingRedirectAuth)
  {
  }

  /**
    An identity with no database user, outside a redirect, gets the stored pending state when
    that state's email matches, and a fresh setup request otherwise.
  */
  lemma UnknownIdentityGetsPendingState(s: Session, ev: AuthEvent)
    requires !s.redirectProcessed && ev.lookupOk && ev.redirect.NoRedirectResult?
    requires !IsLikelyRedirectResult(ev.urlHasAuthParams, s.storage)
    requires SignedInEmail(ev.identity).Some? && UserByEmail(s.db, SignedInEmail(ev.identity).value).None?
    ensures var email := SignedInEmail(ev.identity).value;
      var stored := s.storage.pendingRedirectAuth;
      AuthStateChanged(s, ev)
        == s.(firebaseUser := ev.identity, isLoading := false,
              pendingRedirectAuth := if stored.Some? && stored.value.email == Some(email) then stored
                                     else Some(PendingAuth(Some(true), Some(email))))
  {
  }

  /**
    `handleRedirect` does not consult `redirectProcessed`: a session whose redirect the listener
    has already processed goes through the same lookup as one whose redirect is new.
  */
  lemma RedirectStepIgnoresProcessedMark(s: Session, identity: Identity, lookupOk: bool)
    ensures RedirectStep(s.(redirectProcessed := true), RedirectUser(identity), lookupOk)
            == RedirectStep(s.(redirectProcessed := false), RedirectUser(identity), lookupOk)
    ensures SignedInEmail(Some(identity)).Some? && lookupOk && UserByEmail(s.db, identity.email.value).Some? ==>
      RedirectStep(s.(redirectProcessed := true), RedirectUser(identity), lookupOk).user == UserByEmail(s.db, identity.email.value)
  {
  }

  /** Without an identity the listener clears the pending state, in the session and in storage, and ends loading. */
  lemma {:induction false} SignedOutEventClearsPending(s: Session, ev: AuthEvent)
    requires !s.redirectProcessed && SignedInEmail(ev.identity).None?
    ensures var r := AuthStateChanged(s, ev);
      r.pendingRedirectAuth.None? && r.storage.pendingRedirectAuth.None? && !r.isLoading
  {
    var s0 := s.(firebaseUser := ev.identity);
    var r0 := SignedOutEvent(s0, ev.lookupOk);
    assert r0.pendingRedirectAuth.None? && r0.storage.pendingRedirectAuth.None? by {
      var s1 := ClearPending(s0);
      assert r0.pendingRedirectAuth == s1.pendingRedirectAuth;
      assert r0.storage.pendingRedirectAuth == s1.storage.pendingRedirectAuth;
    }
  }

  /**
    Without an identity, a stored last user that resolves is logged in, and one that does not
    resolve, or whose lookup throws, is removed from storage.
  */
  lemma SignedOutEventHandlesLastUser(s: Session, lookupOk: bool)
    requires s.storage.lastLoggedInUser.Some? && s.storage.lastLoggedInUser.value != ""
    ensures var r := SignedOutEvent(s, lookupOk);
      var last := s.storage.lastLoggedInUser.value;
      (lookupOk && UserByEmail(s.db, last).Some? ==>
        r.user == UserByEmail(s.db, last) && r.storage.lastLoggedInUser == s.storage.lastLoggedInUser)
      && (!lookupOk || UserByEmail(s.db, last).None? ==>
        r.user == s.user && r.storage.lastLoggedInUser.None?)
  {
  }

  /**
    Mobile `loginWithGoogle` sets the redirect flag, clears the pending state and answers
    `{success: false, needsSetup: false}`; if starting the redirect fails the flag is removed again.
  */
  lemma MobileLoginStartsRedirect(s: Session, redirectOk: bool, popup: PopupReply, lookupOk: bool)
    ensures var (r, outcome) := LoginWithGoogle(s, true, redirectOk, popup, lookupOk);
      r.pendingRedirectAuth.None? && r.storage.pendingRedirectAuth.None?
      && (redirectOk ==> r.storage.firebaseAuthRedirect == Some(RedirectFlag)
                         && outcome == LoginOutcome(false, Some(false), None))
      && (!redirectOk ==> r.storage.firebaseAuthRedirect.None? && !r.isAuthenticating
                          && outcome == LoginOutcome(false, None, None))
  {
  }

  /** Every failing desktop `loginWithGoogle` resets `isAuthenticating`, removes the flag and reports failure only. */
  lemma FailedDesktopLoginRecovers(s: Session, popup: PopupReply, lookupOk: bool)
    requires popup.PopupRejected? || SignedInEmail(Some(popup.identity)).None? || !lookupOk
    ensures var (r, outcome) := LoginWithGoogle(s, false, true, popup, lookupOk);
      r == s.(isAuthenticating := false, storage := s.storage.(firebaseAuthRedirect := None))
      && outcome == LoginOutcome(false, None, None)
  {
  }

  /** `login` succeeds exactly when the user exists with a family; on failure only `isLoading` changes. */
  lemma LoginSucceedsIffUserHasFamily(s: Session, username: string, lookupOk: bool)
    ensures var (r, ok) := Login(s, username, lookupOk);
      var found := UserByUsername(s.db, username);
      (ok <==> lookupOk && found.Some? && found.value.familyID != "")
      && (ok ==> r.user == found && r.familyID == Some(found.value.familyID))
      && (ok ==> r.storage.lastLoggedInUser == (if found.value.email != "" then Some(found.value.email)
                                                else s.storage.lastLoggedInUser))
      && (!ok ==> r == s.(isLoading := false))
      && !r.isLoading
  {
  }

  /** `joinExistingFamily` with an unknown family creates no user and changes nothing but `isAuthenticating`. */
  lemma JoinUnknownFamilyChangesNothing(s: Session, email: string, familyID: string, username: string,
                                        newUserID: string, userCallOk: bool)
    requires FamilyById(s.db, familyID).None?
    ensures JoinExistingFamily(s, email, familyID, username, newUserID, true, userCallOk)
      == (s.(isAuthenticating := false), JoinOutcome(false, Some(FamilyNotFoundMessage)))
  {
  }

  /** A successful join binds the new user to the family joined and clears the pending state. */
  lemma {:induction false} JoinBindsFamily(s: Session, email: string, familyID: string, username: string, newUserID: string)
    requires FamilyById(s.db, familyID).Some? && familyID != ""
    requires UserByEmail(s.db, email).None?
    ensures var (r, outcome) := JoinExistingFamily(s, email, familyID, username, newUserID, true, true);
      outcome.success && r.familyID == Some(familyID) && r.service == BoundTo(Some(familyID))
      && r.pendingRedirectAuth.None? && r.storage.pendingRedirectAuth.None?
      && r.storage.lastLoggedInUser == Some(email)
      && UserByEmail(r.db, email) == r.user
  {
    CreatedUserIsFound(s.db, User(username, email, familyID, newUserID));
  }

  /** `createNewFamily` binds the new user to the id of the family it has just created. */
  lemma {:induction false} CreateBindsNewFamily(s: Session, email: string, familyName: string, username: string,
                                                newFamilyID: string, newUserID: string)
    requires newFamilyID != ""
    ensures var (r, ok) := CreateNewFamily(s, email, familyName, username, newFamilyID, newUserID, true, true);
      ok && r.familyID == Some(newFamilyID) && r.user.value.familyID == newFamilyID
      && FamilyById(r.db, newFamilyID) == Some(Family(familyName, newFamilyID))
      && !r.isAuthenticating
  {
    var s1 := s.(db := WithFamily(s.db, Family(familyName, newFamilyID)));
    var u := User(username, email, newFamilyID, newUserID);
    CreatedFamilyIsFound(s.db, Family(familyName, newFamilyID), newFamilyID);
    assert WithUser(s1.db, u).families == s1.db.families;
  }

  /** `logout` clears the session and storage after a successful sign-out, and changes nothing otherwise. */
  lemma LogoutClearsOnlyOnSuccess(s: Session, signOutOk: bool)
    ensures signOutOk ==>
      var r := Logout(s, signOutOk);
      r.user.None? && r.firebaseUser.None? && r.familyID.None? && r.service == NoService
      && r.storage.lastLoggedInUser.None? && r.pendingRedirectAuth.None? && r.storage.pendingRedirectAuth.None?
      && r.storage.firebaseAuthRedirect == s.storage.firebaseAuthRedirect && r.db == s.db
    ensures !signOutOk ==> Logout(s, signOutOk) == s
  {
  }

  lemma AuthResultKeepsCoherence(s: Session, identity: Identity, lookupOk: bool)
    requires Coherent(s)
    ensures Coherent(AuthResultRecorded(s, identity, lookupOk))
  {
  }

  lemma {:induction false} SignedInEventKeepsCoherence(s: Session, identity: Identity, email: string, ev: AuthEvent)
    requires Coherent(s)
    ensures Coherent(SignedInEvent(s, identity, email, ev))
  {
    if !ev.redirect.RedirectRejected? && (ev.redirect.RedirectUser? || IsLikelyRedirectResult(ev.urlHasAuthParams, s.storage)) {
      AuthResultKeepsCoherence(s.(redirectProcessed := true, isProcessingRedirect := true, isAuthenticating := false,
                                  storage := s.storage.(firebaseAuthRedirect := None)),
                               identity, ev.lookupOk);
    }
  }

  /** The auth-state listener keeps the family binding and the item service in agreement with the user. */
  lemma {:induction false} ListenerKeepsCoherence(s: Session, ev: AuthEvent)
    requires Coherent(s)
    ensures Coherent(AuthStateChanged(s, ev))
  {
    var s0 := s.(firebaseUser := ev.identity);
    if !s.redirectProcessed && SignedInEmail(ev.identity).Some? {
      SignedInEventKeepsCoherence(s0, ev.identity.value, SignedInEmail(ev.identity).value, ev);
    }
  }

  /** `handleRedirect` keeps the family binding and the item service in agreement with the user. */
  lemma {:induction false} RedirectKeepsCoherence(s: Session, reply: RedirectReply, lookupOk: bool)
    requires Coherent(s)
    ensures Coherent(RedirectStep(s, reply, lookupOk))
  {
    if reply.RedirectUser? {
      AuthResultKeepsCoherence(s.(redirectProcessed := true, isProcessingRedirect := true, firebaseUser := Some(reply.identity)),
                               reply.identity, lookupOk);
    }
  }

  /** `handleGoogleAuthResult` keeps the family binding and the item service in agreement with the user. */
  lemma GoogleAuthResultKeepsCoherence(s: Session, identity: Identity, lookupOk: bool)
    requires Coherent(s)
    ensures GoogleAuthResult(s, identity, lookupOk).Success? ==> Coherent(GoogleAuthResult(s, identity, lookupOk).value.0)
  {
  }

  /** `login` keeps the family binding and the item service in agreement with the user. */
  lemma LoginKeepsCoherence(s: Session, username: string, lookupOk: bool)
    requires Coherent(s)
    ensures Coherent(Login(s, username, lookupOk).0)
  {
  }

  /** `loginWithGoogle` keeps the family binding and the item service in agreement with the user. */
  lemma {:induction false} GoogleLoginKeepsCoherence(s: Session, popup: PopupReply, isMobile: bool, redirectOk: bool, lookupOk: bool)
    requires Coherent(s)
    ensures Coherent(LoginWithGoogle(s, isMobile, redirectOk, popup, lookupOk).0)
  {
    if !isMobile && popup.PopupUser? {
      GoogleAuthResultKeepsCoherence(s.(isAuthenticating := true), popup.identity, lookupOk);
    }
  }

  /** The family handlers and `logout` keep the family binding and the item service in agreement with the user. */
  lemma FamilyHandlersKeepCoherence(s: Session, email: string, familyName: string, username: string, familyID: string,
                                    newID: string, newUserID: string, b1: bool, b2: bool)
    requires Coherent(s)
    ensures Coherent(CreateNewFamily(s, email, familyName, username, newID, newUserID, b1, b2).0)
    ensures Coherent(JoinExistingFamily(s, email, familyID, username, newUserID, b1, b2).0)
    ensures Coherent(Logout(s, b1))
  {
  }

  lemma InitialIsCoherent(storage: LocalStorage, db: Directory)
    ensures Coherent(Initial(storage, db)) && Initial(storage, db).isLoading
  {
  }

  // ---------------------------------------------------------------------------
  // The provider as a class
  // ---------------------------------------------------------------------------

  class RedirectSession {
    var user: Option<User>
    var familyID: Option<string>
    var service: ItemOperations.ItemOperationsService?
    var firebaseUser: Option<Identity>
    var pendingRedirectAuth: Option<PendingAuth>
    var isLoading: bool
    var isAuthenticating: bool
    var isProcessingRedirect: bool
    /** The listener effect's local `redirectProcessed` flag. */
    var redirectProcessed: bool
    var storage: LocalStorage
    var db: Directory
    /** The store a newly created item service writes to. */
    const store: Storage.ItemStore

    ghost function View(): Session
      reads this, service
    {
      Session(user, familyID, if service == null then NoService else BoundTo(service.familyID),
              firebaseUser, pendingRedirectAuth, isLoading, isAuthenticating, isProcessingRedirect,
              redirectProcessed, storage, db)
    }

    constructor (store: Storage.ItemStore, storage: LocalStorage, db: Directory)
      ensures View() == Initial(storage, db) && this.store == store
    {
      this.store := store;
      user := None;
      familyID := None;
      service := null;
      firebaseUser := None;
      pendingRedirectAuth := None;
      isLoading := true;
      isAuthenticating := false;
      isProcessingRedirect := false;
      redirectProcessed := false;
      this.storage := storage;
      this.db := db;
    }

    /** `updateFamilyContext`: retarget the existing service, or create one, or drop it. */
    method UpdateFamilyContext(newUser: Option<User>)
      modifies this, service
      ensures View() == WithFamilyContext(old(View()), newUser)
      ensures FamilyOf(newUser).Some? && old(service) != null ==> service == old(service)
      ensures FamilyOf(newUser).Some? && old(service) == null ==> fresh(service)
    {
      if newUser.Some? && newUser.value.familyID != "" {
        familyID := Some(newUser.value.familyID);
        if service != null {
          service.UpdateFamilyID(newUser.value.familyID);
        } else {
          service := new ItemOperations.ItemOperationsService(store, Some(newUser.value.familyID));
        }
      } else {
        familyID := None;
        service := null;
      }
    }

    /** `handleGoogleAuthResult`. */
    method HandleGoogleAuthResult(identity: Identity, lookupOk: bool) returns (r: Result<LoginOutcome, AuthFault>)
      modifies this, service
      ensures GoogleAuthResult(old(View()), identity, lookupOk)
              == (if r.Success? then Success((View(), r.value)) else Failure(r.error))
      ensures r.Failure? ==> View() == old(View())
    {
      if identity.email.None? || identity.email.value == "" {
        return Failure(NoEmail);
      }
      var email := identity.email.value;
      if !lookupOk {
        return Failure(CallFailed);
      }
      var existingUser := UserByEmail(db, email);
      if existingUser.Some? {
        user := existingUser;
        UpdateFamilyContext(existingUser);
        storage := storage.(lastLoggedInUser := Some(email));
        r := Success(LoginOutcome(true, None, None));
      } else {
        r := Success(LoginOutcome(false, Some(true), Some(email)));
      }
    }

    /** The outcome handling both redirect branches share. */
    method RecordRedirectOutcome(outcome: LoginOutcome)
      modifies this
      ensures View() == RecordOutcome(old(View()), outcome)
    {
      if outcome.success {
        pendingRedirectAuth := None;
        storage := storage.(pendingRedirectAuth := None);
      } else if outcome.needsSetup == Some(true) {
        pendingRedirectAuth := Some(PendingAuth(Some(true), outcome.email));
        storage := storage.(pendingRedirectAuth := Some(PendingAuth(Some(true), outcome.email)));
      }
    }

    /** Run `handleGoogleAuthResult` for a redirect and record its outcome. */
    method RecordAuthResult(identity: Identity, lookupOk: bool)
      modifies this, service
      ensures View() == AuthResultRecorded(old(View()), identity, lookupOk)
    {
      var authResult := HandleGoogleAuthResult(identity, lookupOk);
      if authResult.Failure? {
        return;
      }
      RecordRedirectOutcome(authResult.value);
      isProcessingRedirect := false;
    }

    /** `handleRedirect`. */
    method HandleRedirect(reply: RedirectReply, lookupOk: bool)
      modifies this, service
      ensures View() == RedirectStep(old(View()), reply, lookupOk)
    {
      if reply.RedirectUser? {
        redirectProcessed := true;
        isProcessingRedirect := true;
        firebaseUser := Some(reply.identity);
        RecordAuthResult(reply.identity, lookupOk);
      }
    }

    /** The `onAuthStateChanged` handler. */
    method OnAuthStateChanged(ev: AuthEvent)
      modifies this, service
      ensures View() == AuthStateChanged(old(View()), ev)
    {
      firebaseUser := ev.identity;
      if redirectProcessed {
        return;
      }
      var email := SignedInEmail(ev.identity);
      if email.Some? {
        SignedIn(ev.identity.value, email.value, ev);
      } else {
        SignedOut(ev.lookupOk);
      }
      isLoading := false;
    }

    /** The listener's branch for an identity with an email. */
    method SignedIn(identity: Identity, email: string, ev: AuthEvent)
      modifies this, service
      ensures View() == SignedInEvent(old(View()), identity, email, ev)
    {
      if ev.redirect.RedirectRejected? {
        isAuthenticating := false;
        return;
      }
      if ev.redirect.RedirectUser? || IsLikelyRedirectResult(ev.urlHasAuthParams, storage) {
        redirectProcessed := true;
        isProcessingRedirect := true;
        isAuthenticating := false;
        storage := storage.(firebaseAuthRedirect := None);
        RecordAuthResult(identity, ev.lookupOk);
      } else {
        LookUpSignedIn(email, ev.lookupOk);
      }
    }

    /** The listener's branch for an identity outside a redirect. */
    method LookUpSignedIn(email: string, lookupOk: bool)
      modifies this, service
      ensures View() == DirectSignIn(old(View()), email, lookupOk)
    {
      if !lookupOk {
        isAuthenticating := false;
        return;
      }
      var existingUser := UserByEmail(db, email);
      if existingUser.Some? {
        user := existingUser;
        UpdateFamilyContext(existingUser);
        storage := storage.(lastLoggedInUser := Some(email));
        pendingRedirectAuth := None;
        storage := storage.(pendingRedirectAuth := None);
      } else {
        var pendingState := storage.pendingRedirectAuth;
        if pendingState.Some? && pendingState.value.email == Some(email) {
          pendingRedirectAuth := pendingState;
        } else {
          pendingRedirectAuth := Some(PendingAuth(Some(true), Some(email)));
        }
      }
    }

    /** The listener's branch without an identity. */
    method SignedOut(lookupOk: bool)
      modifies this, service
      ensures View() == SignedOutEvent(old(View()), lookupOk)
    {
      pendingRedirectAuth := None;
      storage := storage.(pendingRedirectAuth := None);
      var lastUserEmail := storage.lastLoggedInUser;
      if lastUserEmail.Some? && lastUserEmail.value != "" {
        if !lookupOk {
          storage := storage.(lastLoggedInUser := None);
          return;
        }
        var lastUser := UserByEmail(db, lastUserEmail.value);
        if lastUser.Some? {
          user := lastUser;
          UpdateFamilyContext(lastUser);
        } else {
          storage := storage.(lastLoggedInUser := None);
        }
      }
    }

    /** `login`. */
    method LoginByUsername(username: string, lookupOk: bool) returns (ok: bool)
      modifies this, service
      ensures (View(), ok) == Login(old(View()), username, lookupOk)
    {
      isLoading := true;
      ok := false;
      if lookupOk {
        var foundUser := UserByUsername(db, username);
        if foundUser.Some? && foundUser.value.familyID != "" {
          user := foundUser;
          UpdateFamilyContext(foundUser);
          if foundUser.value.email != "" {
            storage := storage.(lastLoggedInUser := Some(foundUser.value.email));
          }
          ok := true;
        }
      }
      isLoading := false;
    }

    /** `loginWithGoogle`. */
    method LoginWithGoogleAccount(isMobile: bool, redirectOk: bool, popup: PopupReply, lookupOk: bool)
      returns (outcome: LoginOutcome)
      modifies this, service
      ensures (View(), outcome) == LoginWithGoogle(old(View()), isMobile, redirectOk, popup, lookupOk)
    {
      isAuthenticating := true;
      if isMobile {
        outcome := SignInWithRedirect(redirectOk);
      } else {
        outcome := SignInWithPopup(popup, lookupOk);
      }
    }

    /** The mobile branch of `loginWithGoogle`. */
    method SignInWithRedirect(redirectOk: bool) returns (outcome: LoginOutcome)
      modifies this
      ensures (View(), outcome) == RedirectLogin(old(View()), redirectOk)
    {
      storage := storage.(firebaseAuthRedirect := Some(RedirectFlag));
      storage := storage.(pendingRedirectAuth := None);
      pendingRedirectAuth := None;
      if redirectOk {
        return LoginOutcome(false, Some(false), None);
      }
      isAuthenticating := false;
      storage := storage.(firebaseAuthRedirect := None);
      outcome := LoginOutcome(false, None, None);
    }

    /** The desktop branch of `loginWithGoogle`. */
    method SignInWithPopup(popup: PopupReply, lookupOk: bool) returns (outcome: LoginOutcome)
      modifies this, service
      ensures (View(), outcome) == PopupLogin(old(View()), popup, lookupOk)
    {
      if popup.PopupUser? {
        var authResult := HandleGoogleAuthResult(popup.identity, lookupOk);
        if authResult.Success? {
          isAuthenticating := false;
          return authResult.value;
        }
      }
      isAuthenticating := false;
      storage := storage.(firebaseAuthRedirect := None);
      outcome := LoginOutcome(false, None, None);
    }

    /** `createNewFamily`. */
    method CreateFamily(email: string, familyName: string, username: string, newFamilyID: string, newUserID: string,
                        familyCallOk: bool, userCallOk: bool) returns (ok: bool)
      modifies this, service
      ensures (View(), ok) == CreateNewFamily(old(View()), email, familyName, username, newFamilyID, newUserID, familyCallOk, userCallOk)
    {
      isAuthenticating := true;
      ok := false;
      if familyCallOk {
        var newFamily := Family(familyName, newFamilyID);
        db := WithFamily(db, newFamily);
        if userCallOk {
          var newUser := User(username, email, newFamily.familyID, newUserID);
          db := WithUser(db, newUser);
          user := Some(newUser);
          UpdateFamilyContext(Some(newUser));
          storage := storage.(lastLoggedInUser := Some(email));
          pendingRedirectAuth := None;
          storage := storage.(pendingRedirectAuth := None);
          ok := true;
        }
      }
      isAuthenticating := false;
    }

    /** `joinExistingFamily`. */
    method JoinFamily(email: string, familyID: string, username: string, newUserID: string,
                      familyCallOk: bool, userCallOk: bool) returns (outcome: JoinOutcome)
      modifies this, service
      ensures (View(), outcome) == JoinExistingFamily(old(View()), email, familyID, username, newUserID, familyCallOk, userCallOk)
    {
      isAuthenticating := true;
      if !familyCallOk {
        outcome := JoinOutcome(false, Some(JoinFailedMessage));
      } else if FamilyById(db, familyID).None? {
        outcome := JoinOutcome(false, Some(FamilyNotFoundMessage));
      } else if !userCallOk {
        outcome := JoinOutcome(false, Some(JoinFailedMessage));
      } else {
        var newUser := User(username, email, familyID, newUserID);
        db := WithUser(db, newUser);
        user := Some(newUser);
        UpdateFamilyContext(Some(newUser));
        storage := storage.(lastLoggedInUser := Some(email));
        pendingRedirectAuth := None;
        storage := storage.(pendingRedirectAuth := None);
        outcome := JoinOutcome(true, None);
      }
      isAuthenticating := false;
    }

    /** `logout`. */
    method SignOut(signOutOk: bool)
      modifies this, service
      ensures View() == Logout(old(View()), signOutOk)
    {
      if signOutOk {
        user := None;
        firebaseUser := None;
        UpdateFamilyContext(None);
        storage := storage.(lastLoggedInUser := None);
        pendingRedirectAuth := None;
        storage := storage.(pendingRedirectAuth := None);
      }
    }
  }
}
