# Family inventory: a Dafny model of its core

This project models the logic of a small family inventory web app. Items are scanned by barcode, their stock is counted from 0 to 20, and the inventory is shared by the members of a family. The model covers five parts of the app:

- **Item service** (`ItemOperationsService`). It is bound to one family, and every item read and write goes through it. Modules `ItemOperations` and `ItemErrors` model it. Module `Storage` stands in for the family item store the service calls. Module `Stock` holds the stock clamp.
- **Local inventory screen** (`App`). It keeps a list keyed by barcode, with an add dialog, a remove dialog, and a search and stock filter. Module `LocalInventory` models it.
- **Redirect-capable auth provider** (`AuthContext.tsx`). It signs in with a redirect on mobile and a popup elsewhere, keeps a pending setup state, and binds the item service to the user's family. Module `RedirectAuth` models it; module `Accounts` holds the user and family records it shares with the other provider.
- **Popup-only auth provider** (`AutoContext.tsx`). Module `PopupAuth` models it.
- **Swipe gesture hook** of an item row. Module `Swipe` models it.

Each stateful part is modelled the same way. The part's state is a value (`Session`, `Gesture`), and each handler is a function from the old value to the new one. All properties are proved as lemmas about those functions. The part is also a class whose fields are the source's state. Each class method performs the handler step by step, as the source does, and is proved to end in the state the function gives. The item store and the list screen are classes whose methods say directly what they change.

Remote calls do not appear as calls. A database call, a sign-in, a store read or write, or a sign-out becomes an input that says how the call ends: delivered or rejected, and with which value. The user and family database is a value inside the session.

## Model

| member | source | states |
|---|---|---|
| Stock.Incremented | src/services/itemOperations.ts:198-201 | `min(20, n+1)`: never above 20, exactly one more below 20, 20 at or above it, and it stays within 0..20 |
| Stock.Decremented | src/services/itemOperations.ts:217-220 | `max(0, n-1)`: never below 0, exactly one less above 0, 0 at or below it, and it stays within 0..20 |
| Stock.RepeatedIncrementsSaturate | src/services/itemOperations.ts:198-201 | k increments from a count in range give `min(20, n+k)` |
| Stock.RepeatedDecrementsSaturate | src/services/itemOperations.ts:217-220 | k decrements from a count in range give `max(0, n-k)` |
| Stock.AdjustmentsUndoEachOther | src/services/itemOperations.ts:196-229 | below 20 a decrement undoes an increment; above 0 an increment undoes a decrement |
| Storage.Upserted | src/services/itemOperations.ts:184 | writing an item stores it under its id in its family's document, creating the document if needed; other families are untouched |
| Storage.Deleted | src/services/itemOperations.ts:236 | deleting drops exactly that item id from the family's document; a family without a document is left as it is |
| Storage.UpsertIsIdempotent | src/services/itemOperations.ts:184 | writing the same item twice leaves the store as writing it once |
| Storage.WritesKeepKeys | src/services/itemOperations.ts:139-154 | writes and deletes keep every item stored under its own id |
| Storage.UpsertThenDeleteRestores | src/services/itemOperations.ts:234-240 | adding a new item grows its family by one, and removing it again restores the store |
| Storage.ItemStore.Upsert | src/services/itemOperations.ts:184 | an unusable family id or a rejected call changes nothing and reports the error; otherwise the store becomes `Upserted` |
| Storage.ItemStore.Delete | src/services/itemOperations.ts:236 | an unusable family id or a rejected call changes nothing and reports the error; otherwise the store becomes `Deleted` |
| Storage.ListingHoldsEachOnce | src/services/itemOperations.ts:30-34 | when every item is stored under its own id, a listed read holds each stored item exactly once |
| Storage.ItemStore.FetchAll | src/services/itemOperations.ts:30-34 | a listed read has one entry per key of the family's document: each stored item appears as often as keys hold it, and nothing else appears; a rejection or a non-array reply is passed on |
| ItemErrors.FetchError | src/services/itemOperations.ts:43-56 | an Error mentioning permission or unauthorized becomes the permission message; otherwise network or offline becomes the network message; an "Invalid familyID" error is rethrown as is; anything else, including a non-Error value, becomes the generic message |
| ItemErrors.FetchCheckIsStricter | src/services/itemOperations.ts:135-136 | every id that the read check at line 24 accepts is accepted by the write check, and a whitespace-only id passes the write check but not the read check |
| ItemErrors.InvalidFetchMessageTagged | src/services/itemOperations.ts:25 | the validation message starts with "Invalid familyID" |
| ItemErrors.InvalidFetchMessageUnflagged | src/services/itemOperations.ts:25-47 | for every rejected id, including `undefined` and whitespace, the validation message holds none of "permission", "unauthorized", "network" or "offline" |
| ItemErrors.ValidationErrorPassesThrough | src/services/itemOperations.ts:24-53 | the validation error of a rejected id leaves the catch block unchanged |
| ItemOperations.FetchFailure | src/services/itemOperations.ts:21-57 | a rejected id fails with the validation message, which is not retriable; otherwise `fetchItems` fails exactly when the read is rejected, with the mapped error |
| ItemOperations.BackoffsDouble | src/services/itemOperations.ts:77-81 | the waits between attempts start at 1000 ms and double each time |
| ItemOperations.FirstMatch | src/services/itemOperations.ts:97 | `find` returns the first item with exactly that barcode, or none when no item has it |
| ItemOperations.Bumped | src/services/itemOperations.ts:198-201 | the same item with every other field unchanged; stock one higher below 20 and exactly 20 at or above it |
| ItemOperations.Lowered | src/services/itemOperations.ts:217-220 | the same item with every other field unchanged; stock one lower above 0 and exactly 0 at or below it |
| ItemOperations.StockChangesUndoEachOther | src/services/itemOperations.ts:196-229 | a decrease undoes an increase below 20, and the other way round above 0 |
| ItemOperations.Edited | src/services/itemOperations.ts:175-182 | an edit keeps the id and the stock and replaces the barcode, name, icon, category and brand with the given values |
| ItemOperations.EditRoundTrip | src/services/itemOperations.ts:175-182 | editing back to the old barcode and descriptive fields restores the item |
| ItemOperations.BarcodeDecision | src/services/itemOperations.ts:97-116 | a new item is needed exactly when no item has the barcode; otherwise the result is the first match, bumped |
| ItemOperations.ItemOperationsService.constructor | src/services/itemOperations.ts:14-16 | the service is bound to the given family |
| ItemOperations.ItemOperationsService.FetchItems | src/services/itemOperations.ts:21-58 | fails with `FetchFailure` when that says so; otherwise returns no items for a non-array reply and the family's items for a listed one |
| ItemOperations.ItemOperationsService.FetchItemsWithRetry | src/services/itemOperations.ts:62-86 | at most `maxRetries` attempts, each failure before the last one retriable; a validation error stops at once; a success returns that attempt's items; the waits recorded are `Backoffs(attempts-1)`; with fewer than one retry the thrown value is not an Error. The default of 3 attempts is `DefaultMaxRetries` |
| ItemOperations.ItemOperationsService.ProcessBarcodeSubmit | src/services/itemOperations.ts:91-121 | an unknown barcode writes nothing and asks for a new item; a known one writes the bumped first match, or fails with the barcode message and writes nothing |
| ItemOperations.ItemOperationsService.AddNewItem | src/services/itemOperations.ts:126-161 | an empty or missing family id fails with the add message and writes nothing; otherwise the new item has the given fields, the given id and stock 1, and is what gets written; when that id is unused in the family, the family grows by exactly that item and every earlier item stays |
| ItemOperations.ItemOperationsService.UpdateItem | src/services/itemOperations.ts:166-191 | a landed write stores and returns `Edited`; otherwise it fails with the update message and writes nothing |
| ItemOperations.ItemOperationsService.IncreaseItemStock | src/services/itemOperations.ts:196-210 | a landed write stores and returns `Bumped`; otherwise it fails with the quantity message and writes nothing |
| ItemOperations.ItemOperationsService.DecreaseItemStock | src/services/itemOperations.ts:215-229 | a landed write stores and returns `Lowered`; otherwise it fails with the quantity message and writes nothing |
| ItemOperations.ItemOperationsService.RemoveItem | src/services/itemOperations.ts:234-241 | a landed delete removes the item; otherwise it fails with the remove message and changes nothing |
| ItemOperations.ItemOperationsService.UpdateFamilyID | src/services/itemOperations.ts:246-248 | later calls address the new family |
| LocalInventory.Adjusted | src/App.tsx:22-26 | same length; items without the barcode are unchanged; items with it keep every field but the stock, which goes through the adjustment |
| LocalInventory.Keep | src/App.tsx:74 | `filter` returns an order-preserving sublist holding each passing item as often as the list does, and no other item |
| LocalInventory.Without | src/App.tsx:74 | removal keeps, in order, each item with another barcode as often as the list holds it, and no other item |
| LocalInventory.Filtered | src/App.tsx:79-88 | the visible list is an order-preserving sublist holding each item that matches both the search and the stock filter as often as the list does, and no other item |
| LocalInventory.EmptySearchShowsEverything | src/App.tsx:79-88 | an empty search with filter `'all'` shows the whole list |
| LocalInventory.StockFiltersSplit | src/App.tsx:83-85 | a matching item with non-negative stock is in exactly one of the `'inStock'` and `'outOfStock'` lists |
| LocalInventory.AdjustmentsKeepRange | src/App.tsx:52-66 | increase and decrease keep every stock within 0..20 and keep the length |
| LocalInventory.UnknownBarcodeChangesNothing | src/App.tsx:52-66 | increase and decrease with an unknown barcode leave the list as it is |
| LocalInventory.DecreaseUndoesIncrease | src/App.tsx:52-66 | when every matching item is below 20, a decrease undoes an increase |
| LocalInventory.RemovalIsIdempotent | src/App.tsx:72-77 | removing a barcode twice is the same as removing it once |
| LocalInventory.AddedBarcodeIsKnown | src/App.tsx:17-45 | after an add, the barcode is known, so the next scan raises that item's stock to 2 |
| LocalInventory.InventoryApp.constructor | src/App.tsx:10-15 | an empty list, both dialogs closed, no search and filter `'all'` |
| LocalInventory.InventoryApp.HandleBarcodeSubmit | src/App.tsx:17-32 | a known barcode increases its items; an unknown one leaves the list alone, records the barcode and opens the add dialog |
| LocalInventory.InventoryApp.HandleAddNewItem | src/App.tsx:34-45 | appends exactly one item with the pending barcode and stock 1, then clears the barcode and closes the dialog |
| LocalInventory.InventoryApp.HandleCloseAddDialog | src/App.tsx:47-50 | closes the dialog, clears the pending barcode and keeps the list |
| LocalInventory.InventoryApp.IncreaseAmount | src/App.tsx:52-58 | the list becomes `Increased`, and nothing else changes |
| LocalInventory.InventoryApp.DecreaseAmount | src/App.tsx:60-66 | the list becomes `Decreased`, and nothing else changes |
| LocalInventory.InventoryApp.HandleRemoveItem | src/App.tsx:68-70 | only records the barcode awaiting confirmation |
| LocalInventory.InventoryApp.ConfirmRemoveItem | src/App.tsx:72-77 | with a pending non-empty barcode, removes its items and closes the dialog; otherwise does nothing |
| LocalInventory.InventoryApp.CloseRemoveDialog | src/App.tsx:119 | closes the remove dialog and keeps everything else |
| LocalInventory.InventoryApp.SetSearchTerm | src/App.tsx:96 | sets only the search term |
| LocalInventory.InventoryApp.SetFilter | src/App.tsx:98 | sets only the stock filter |
| LocalInventory.InventoryApp.FilteredItems | src/App.tsx:79-88 | the visible list for the current search and filter: an order-preserving sublist holding each matching item as often as the list does, and no other item |
| Accounts.SignedInEmail | src/contexts/AuthContext.tsx:180 | the email counts as signed in exactly when there is an identity with a non-empty email |
| Accounts.UserByEmail | src/contexts/AuthContext.tsx:131 | the user found has that email and is in the database; none is found exactly when no user has it |
| Accounts.UserByUsername | src/contexts/AuthContext.tsx:299 | the user found has that username and is in the database; none is found exactly when no user has it |
| Accounts.FamilyById | src/contexts/AuthContext.tsx:403 | a family is found exactly when one is stored under that id |
| Accounts.CreatedUserIsFound | src/contexts/AuthContext.tsx:409 | a user created for an email no one has yet is what a later lookup by that email finds |
| Accounts.CreatedFamilyIsFound | src/contexts/AuthContext.tsx:376 | a created family is found by its id, and other families are untouched |
| Accounts.FamilyOf | src/contexts/AuthContext.tsx:86 | a user binds a family exactly when the user's family id is non-empty |
| Accounts.ServiceFor | src/contexts/AuthContext.tsx:85-101 | a service exists exactly when a family is bound, and it is bound to that family |
| RedirectAuth.IsLikelyRedirectResult | src/contexts/AuthContext.tsx:61-72 | true exactly when the URL has redirect parameters or the stored redirect flag is `'true'` |
| RedirectAuth.WithFamilyContext | src/contexts/AuthContext.tsx:85-101 | sets the family binding and the service from the user, and changes nothing else |
| RedirectAuth.FamilyContextBindsOrClears | src/contexts/AuthContext.tsx:85-101 | a user with a family binds it and a service for it; otherwise both are cleared |
| RedirectAuth.GoogleAuthResultOutcomes | src/contexts/AuthContext.tsx:123-143 | no email throws; a failed lookup throws; a match logs in, binds the family and its service, stores the email and changes nothing else; no match asks for setup with the email and leaves the session as it was |
| RedirectAuth.ProcessedEventsOnlyTrackIdentity | src/contexts/AuthContext.tsx:175-178 | once a redirect has been processed, an auth event only records the identity |
| RedirectAuth.ListenerRedirectBranchRemovesFlag | src/contexts/AuthContext.tsx:186-199 | the listener's redirect branch marks the redirect processed and removes the redirect flag whatever the lookup does; it ends loading and authenticating |
| RedirectAuth.RedirectStepKeepsFlag | src/contexts/AuthContext.tsx:149-171 | `handleRedirect` never touches the stored redirect flag |
| RedirectAuth.RedirectStepIgnoresProcessedMark | src/contexts/AuthContext.tsx:149-171 | `handleRedirect` never reads `redirectProcessed`: a redirect the listener already handled is looked up again and logs the user in again |
| RedirectAuth.RedirectFailureLeavesProcessing | src/contexts/AuthContext.tsx:149-171 | when `handleGoogleAuthResult` throws inside `handleRedirect`, `isProcessingRedirect` stays true, the redirect counts as processed and the user is unchanged |
| RedirectAuth.RedirectSuccessRecordsOutcome | src/contexts/AuthContext.tsx:149-166 | a redirect that is handled ends processing and either logs the user in and clears the pending state, or stores a setup request for the email |
| RedirectAuth.UnknownIdentityGetsPendingState | src/contexts/AuthContext.tsx:227-239 | an identity with no user outside a redirect gets the stored pending state when its email matches, and a fresh setup request otherwise; the identity is recorded, loading ends, and nothing else changes |
| RedirectAuth.SignedOutEventClearsPending | src/contexts/AuthContext.tsx:246-252 | without an identity the pending state is cleared in the session and in storage, and loading ends |
| RedirectAuth.SignedOutEventHandlesLastUser | src/contexts/AuthContext.tsx:254-271 | a stored last user that resolves is logged in; one that does not resolve, or whose lookup throws, is removed |
| RedirectAuth.MobileLoginStartsRedirect | src/contexts/AuthContext.tsx:335-366 | mobile sign-in clears the pending state and sets the flag; when the redirect starts it answers success false with needsSetup false; when it fails the flag is removed and authenticating ends |
| RedirectAuth.FailedDesktopLoginRecovers | src/contexts/AuthContext.tsx:352-367 | a failing popup sign-in only ends authenticating and removes the flag, and reports failure |
| RedirectAuth.LoginSucceedsIffUserHasFamily | src/contexts/AuthContext.tsx:296-321 | `login` succeeds exactly when the user exists and has a family; on success the user's email is stored when it is non-empty, and the stored email is kept otherwise; on failure only loading changes; loading always ends |
| RedirectAuth.JoinUnknownFamilyChangesNothing | src/contexts/AuthContext.tsx:398-408 | an unknown family gives the not-found error and changes nothing but authenticating |
| RedirectAuth.JoinBindsFamily | src/contexts/AuthContext.tsx:398-419 | a successful join binds the new user and a service to that family, clears the pending state and stores the email; the new user is found by email |
| RedirectAuth.CreateBindsNewFamily | src/contexts/AuthContext.tsx:371-388 | a new family is stored, and the new user is bound to its id |
| RedirectAuth.LogoutClearsOnlyOnSuccess | src/contexts/AuthContext.tsx:429-442 | a successful sign-out clears the user, the identity, the family, the service, the last user and the pending state; a failed one changes nothing |
| RedirectAuth.GoogleAuthResultKeepsCoherence | src/contexts/AuthContext.tsx:123-143 | `handleGoogleAuthResult` keeps the family and the service in agreement with the user |
| RedirectAuth.ListenerKeepsCoherence | src/contexts/AuthContext.tsx:175-275 | the auth listener keeps the family and the service in agreement with the user |
| RedirectAuth.RedirectKeepsCoherence | src/contexts/AuthContext.tsx:149-171 | `handleRedirect` keeps the family and the service in agreement with the user |
| RedirectAuth.LoginKeepsCoherence | src/contexts/AuthContext.tsx:296-321 | `login` keeps the family and the service in agreement with the user |
| RedirectAuth.GoogleLoginKeepsCoherence | src/contexts/AuthContext.tsx:324-368 | `loginWithGoogle` keeps the family and the service in agreement with the user |
| RedirectAuth.FamilyHandlersKeepCoherence | src/contexts/AuthContext.tsx:371-442 | create, join and logout keep the family and the service in agreement with the user |
| RedirectAuth.InitialIsCoherent | src/contexts/AuthContext.tsx:75-82 | the initial session is loading and in agreement |
| RedirectAuth.RedirectSession.constructor | src/contexts/AuthContext.tsx:75-82 | the session starts as `Initial` |
| RedirectAuth.RedirectSession.UpdateFamilyContext | src/contexts/AuthContext.tsx:85-101 | performs `WithFamilyContext`; an existing service is retargeted, and a new one is created only when there was none |
| RedirectAuth.RedirectSession.HandleGoogleAuthResult | src/contexts/AuthContext.tsx:123-143 | performs `GoogleAuthResult`, and changes nothing when it throws |
| RedirectAuth.RedirectSession.RecordRedirectOutcome | src/contexts/AuthContext.tsx:156-165 | performs `RecordOutcome` |
| RedirectAuth.RedirectSession.RecordAuthResult | src/contexts/AuthContext.tsx:155-166 | performs `AuthResultRecorded` |
| RedirectAuth.RedirectSession.HandleRedirect | src/contexts/AuthContext.tsx:149-171 | performs `RedirectStep` |
| RedirectAuth.RedirectSession.OnAuthStateChanged | src/contexts/AuthContext.tsx:175-275 | performs `AuthStateChanged` |
| RedirectAuth.RedirectSession.SignedIn | src/contexts/AuthContext.tsx:180-245 | performs `SignedInEvent` |
| RedirectAuth.RedirectSession.LookUpSignedIn | src/contexts/AuthContext.tsx:213-240 | performs `DirectSignIn` |
| RedirectAuth.RedirectSession.SignedOut | src/contexts/AuthContext.tsx:246-272 | performs `SignedOutEvent` |
| RedirectAuth.RedirectSession.LoginByUsername | src/contexts/AuthContext.tsx:296-321 | performs `Login` |
| RedirectAuth.RedirectSession.LoginWithGoogleAccount | src/contexts/AuthContext.tsx:324-368 | performs `LoginWithGoogle` |
| RedirectAuth.RedirectSession.SignInWithRedirect | src/contexts/AuthContext.tsx:335-351 | performs `RedirectLogin` |
| RedirectAuth.RedirectSession.SignInWithPopup | src/contexts/AuthContext.tsx:352-367 | performs `PopupLogin` |
| RedirectAuth.RedirectSession.CreateFamily | src/contexts/AuthContext.tsx:371-395 | performs `CreateNewFamily` |
| RedirectAuth.RedirectSession.JoinFamily | src/contexts/AuthContext.tsx:398-426 | performs `JoinExistingFamily` |
| RedirectAuth.RedirectSession.SignOut | src/contexts/AuthContext.tsx:429-442 | performs `Logout` |
| PopupAuth.LoggedIn | src/contexts/AutoContext.tsx:58-74 | sets the user, the family binding and the service from that user, and changes nothing else |
| PopupAuth.SignedInListenerOutcomes | src/contexts/AutoContext.tsx:94-105 | a signed-in email with a user logs that user in and stores the email; with no user, or a throwing lookup, only the identity and loading change |
| PopupAuth.SignedOutListenerOutcomes | src/contexts/AutoContext.tsx:106-121 | a stored last user that resolves is logged in; one that does not resolve stays stored; a throwing lookup removes it |
| PopupAuth.ListenerEndsLoading | src/contexts/AutoContext.tsx:91-124 | every auth event ends loading, records the identity and leaves the database alone |
| PopupAuth.GoogleLoginOutcomes | src/contexts/AutoContext.tsx:158-195 | authenticating ends on every path; success exactly when the popup's email has a user; setup is requested exactly when it has none; any failure changes nothing but authenticating |
| PopupAuth.LoginSucceedsIffUserHasFamily | src/contexts/AutoContext.tsx:130-155 | `login` succeeds exactly when the user exists and has a family; on success the session is that user logged in, with the email stored when it is non-empty and kept otherwise, and nothing else changes; on failure only loading changes; loading always ends |
| PopupAuth.CreateBindsNewFamily | src/contexts/AutoContext.tsx:198-213 | a new family is stored; the new user and a service are bound to its id; the email is stored |
| PopupAuth.CreateFailureLogsNobodyIn | src/contexts/AutoContext.tsx:198-220 | a failed create logs nobody in; a family created before the user call failed stays stored |
| PopupAuth.JoinUnknownFamilyChangesNothing | src/contexts/AutoContext.tsx:223-231 | an unknown family gives the not-found error and changes nothing but authenticating |
| PopupAuth.JoinBindsFamily | src/contexts/AutoContext.tsx:223-241 | a successful join binds the new user and a service to that family and stores the email; the new user is found by email |
| PopupAuth.LogoutClearsOnlyOnSuccess | src/contexts/AutoContext.tsx:251-262 | a successful sign-out clears the user, the identity, the family, the service and the last user; a failed one changes nothing |
| PopupAuth.ListenerKeepsCoherence | src/contexts/AutoContext.tsx:91-124 | the auth listener keeps the family and the service in agreement with the user |
| PopupAuth.HandlersKeepCoherence | src/contexts/AutoContext.tsx:130-262 | login, Google login, create, join and logout keep the family and the service in agreement with the user |
| PopupAuth.PopupSession.constructor | src/contexts/AutoContext.tsx:50-55 | the session starts as `Initial` |
| PopupAuth.PopupSession.SetUser | src/contexts/AutoContext.tsx:58-74 | performs `LoggedIn`; an existing service is retargeted, and a new one is created only when there was none |
| PopupAuth.PopupSession.OnAuthStateChanged | src/contexts/AutoContext.tsx:91-124 | performs `AuthStateChanged` |
| PopupAuth.PopupSession.LoginByUsername | src/contexts/AutoContext.tsx:130-155 | performs `Login` |
| PopupAuth.PopupSession.LoginWithGoogleAccount | src/contexts/AutoContext.tsx:158-195 | performs `LoginWithGoogle` |
| PopupAuth.PopupSession.CreateFamily | src/contexts/AutoContext.tsx:198-220 | performs `CreateNewFamily` |
| PopupAuth.PopupSession.JoinFamily | src/contexts/AutoContext.tsx:223-248 | performs `JoinExistingFamily` |
| PopupAuth.PopupSession.SignOut | src/contexts/AutoContext.tsx:251-262 | performs `Logout` |
| Swipe.Clamped | src/hooks/useSwipeGestures.ts:40-41 | the offset lies within ±120; it equals the distance inside that range and is the nearer bound outside it |
| Swipe.StartKeepsOffset | src/hooks/useSwipeGestures.ts:18-24 | a press records the start point, starts dragging and keeps the offset |
| Swipe.MoveDragsHorizontally | src/hooks/useSwipeGestures.ts:26-45 | a move sets the offset to the clamped horizontal distance exactly when there is a start point (for the mouse, also while dragging) and the move is more horizontal than vertical; otherwise nothing changes; the offset stays within ±120 |
| Swipe.ReleaseFiresBeyondMinimum | src/hooks/useSwipeGestures.ts:47-64 | a release with a start point resets the gesture, and fires exactly one callback exactly when the offset is beyond the minimum: right for a positive offset, left otherwise; without a start point it does nothing |
| Swipe.StepKeepsDragRange | src/hooks/useSwipeGestures.ts:18-104 | every event keeps the offset within ±120 |
| Swipe.RunKeepsDragRange | src/hooks/useSwipeGestures.ts:18-104 | any sequence of events keeps the offset within ±120 |
| Swipe.LongMinimumNeverFires | src/hooks/useSwipeGestures.ts:41-50 | with a minimum of 120 or more, no sequence of events ever fires a swipe |
| Swipe.FullDragFiresUnderDefault | src/hooks/useSwipeGestures.ts:11-64 | with the default minimum of 80, a press, a horizontal drag past the clamp and a release fire the right swipe once and end at rest |
| Swipe.IconFollowsDirection | src/hooks/useSwipeGestures.ts:124-127 | the icon is `+1` from 20 up, `-1` from -20 down and absent in between, and it never shows without the background |
| Swipe.BackgroundBeyondTen | src/hooks/useSwipeGestures.ts:129 | the background shows exactly beyond 10 either way, and neither it nor the icon shows at rest |
| Swipe.SwipeGestures.constructor | src/hooks/useSwipeGestures.ts:11-15 | the hook starts at rest with the given minimum |
| Swipe.SwipeGestures.HandleTouchStart | src/hooks/useSwipeGestures.ts:18-24 | performs `Started` |
| Swipe.SwipeGestures.HandleMouseDown | src/hooks/useSwipeGestures.ts:67-73 | performs `Started` |
| Swipe.SwipeGestures.HandleTouchMove | src/hooks/useSwipeGestures.ts:26-45 | performs `Moved` without the dragging test |
| Swipe.SwipeGestures.HandleMouseMove | src/hooks/useSwipeGestures.ts:75-86 | performs `Moved` with the dragging test |
| Swipe.SwipeGestures.HandleTouchEnd | src/hooks/useSwipeGestures.ts:47-64 | performs `Released` and returns the callback fired |
| Swipe.SwipeGestures.HandleMouseUp | src/hooks/useSwipeGestures.ts:88-104 | performs `Released` and returns the callback fired |
| Swipe.SwipeGestures.GetActionIcon | src/hooks/useSwipeGestures.ts:124-127 | the icon for the current offset, which agrees with its direction and never shows without the background |

## Left out

- The user and family database calls (`getUserByEmail`, `getUserByUsername`, `getFamilyById`, `createFamily`, `createUser`) are not part of this model. The database is a value: a list of users, where a lookup returns the first match, and a map of families. Whether a call succeeds is a boolean input. The ids that `createFamily` and `createUser` assign are inputs.
- The family item store functions (`addItemToFamily`, `updateItemInFamily`, `deleteItemFromFamily`, `getFamilyItems`) are not part of this model. The store is one map per family, from item id to item. `Storage.DocumentKey` states that the store refuses an empty or missing family id; this is an assumption of the model. A read lists the stored items in an order the model leaves open.
- `uuidv4` is a `freshID` input of `AddNewItem`, and the uniqueness of the ids it generates is not modelled. An input equal to an existing item id overwrites that item. The contract states the family's growth only for an unused id.
- `amountInStock`, a JavaScript number, is an unbounded integer. Fractional and non-finite values are not modelled.
- A family binding that is `null` or another non-string value is not modelled. The only one modelled is `undefined`, which `None` stands for.
- Async interleaving is not modelled. Each handler is one atomic step. This leaves out races between `handleRedirect`, `checkInitialRedirect` and the listener, suspension at `await`, and the stale capture of `itemOperationsService` in React closures. The listener's local `redirectProcessed` variable is a field of the session. The exactly-once handling of a redirect result holds only when `handleRedirect` runs before the listener (`RedirectAuth.ProcessedEventsOnlyTrackIdentity`). In the other order, the result is looked up again (`RedirectAuth.RedirectStepIgnoresProcessedMark`).
- `checkInitialRedirect` (src/contexts/AuthContext.tsx:278-288) and the pending-setup effect (src/contexts/AuthContext.tsx:445-450) only log, so they are not modelled.
- The waits of `fetchItemsWithRetry` are recorded as values; the timer is not modelled.
- The user-agent test `isMobileDevice` and the URL inspection in `isLikelyRedirectResult` are boolean inputs.
- The stored pending state's JSON encoding is taken as exact: what is stored is what is read back.
- An error thrown by a sign-in, sign-out or database call in the auth providers is not modelled, only the fact that the call failed. No handler uses its content.
- `toLowerCase` in the search is modelled on ASCII letters only.
- Pointer coordinates are whole pixels, so fractional pixel values are not modelled. `preventDefault` on a touch move is a browser side effect and is left out.
- The float styling of `getBackgroundStyle` and `getRowStyle` (opacity, transforms, transitions) and `elementRef` are left out.
- A family's `users` list is never used by the providers and is dropped from `Family`.
- The view components, product lookup, i18n setup and all console logging are left out.
