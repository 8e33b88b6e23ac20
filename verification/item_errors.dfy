/**
  The failure side of the item service: which family bindings it accepts, and the fixed
  messages it turns store failures into.
*/
module ItemErrors {
  import opened Common
  import opened Storage

  const PermissionMessage := "You do not have permission to access this family's items."
  const NetworkMessage := "Network error. Please check your connection and try again."
  const FetchFailedMessage := "Failed to load family items. Please try again."
  const BarcodeFailedMessage := "Failed to process barcode. Please try again."
  const AddFailedMessage := "Failed to add item. Please try again."
  const UpdateFailedMessage := "Failed to update item. Please try again."
  const QuantityFailedMessage := "Failed to update item quantity. Please try again."
  const RemoveFailedMessage := "Failed to remove item. Please try again."

  // ---------------------------------------------------------------------------
  // Validation and error mapping
  // ---------------------------------------------------------------------------

  /** The family binding as a template literal shows it; `None` stands for an `undefined` binding. */
  function Rendered(familyID: Option<string>): string
  {
    if familyID.Some? then familyID.value else "undefined"
  }

  /**
    The text around the binding in the validation message, "Invalid familyID: " and
    ". Cannot fetch items without a valid family ID.", written in pieces cut around each 'f'
    so that the lemmas below can look at one short piece at a time.
  */
  const FetchMessageHead := "Invalid " + "f" + "amilyID: "
  const FetchMessageTail := ". Cannot " + "f" + "etch items " + "without a valid " + "f" + "amily ID."

  function InvalidFetchMessage(familyID: Option<string>): string
  {
    FetchMessageHead + Rendered(familyID) + FetchMessageTail
  }

  /** The check `fetchItems` makes before reading: a non-empty string that is not all whitespace. */
  predicate FetchableID(familyID: Option<string>)
  {
    familyID.Some? && familyID.value != "" && !IsBlank(familyID.value)
  }

  /** The check `addNewItem` makes before writing: a non-empty string (whitespace is accepted). */
  predicate WritableID(familyID: Option<string>)
  {
    familyID.Some? && familyID.value != ""
  }

  /** The read check is the stricter one: a whitespace-only binding may be written to but not read from. */
  lemma FetchCheckIsStricter(familyID: Option<string>)
    ensures FetchableID(familyID) ==> WritableID(familyID)
    ensures familyID.Some? && familyID.value != "" && IsBlank(familyID.value) ==>
      WritableID(familyID) && !FetchableID(familyID)
  {
  }

  /** The catch block of `fetchItems`: what it throws for the value it caught. */
  function FetchError(e: Thrown): (r: Thrown)
    ensures r.Error?
    ensures r.message in {PermissionMessage, NetworkMessage, FetchFailedMessage}
            || (r == e && Contains(e.message, "Invalid familyID"))
    ensures e.Error? && (Contains(e.message, "permission") || Contains(e.message, "unauthorized"))
            ==> r.message == PermissionMessage
    ensures e.Error? && !Contains(e.message, "permission") && !Contains(e.message, "unauthorized")
            && (Contains(e.message, "network") || Contains(e.message, "offline"))
            ==> r.message == NetworkMessage
    ensures e.NotAnError? ==> r.message == FetchFailedMessage
  {
    match e
    case NotAnError => Error(FetchFailedMessage)
    case Error(m) =>
      if Contains(m, "permission") || Contains(m, "unauthorized") then Error(PermissionMessage)
      else if Contains(m, "network") || Contains(m, "offline") then Error(NetworkMessage)
      else if Contains(m, "Invalid familyID") then e
      else Error(FetchFailedMessage)
  }

  lemma HeadPiecesLack(c: char)
    requires c == 'p' || c == 'z' || c == 'k'
    ensures c !in "Invalid " && c !in "f" && c !in "amilyID: "
  {
  }

  lemma TailPiecesLack(c: char)
    requires c == 'p' || c == 'z' || c == 'k'
    ensures c !in ". Cannot " && c !in "etch items " && c !in "without a valid " && c !in "amily ID."
  {
  }

  /** The fixed parts of the validation message lack 'p', 'z' and 'k' (from "permission", "unauthorized", "network"). */
  lemma {:induction false} FixedPartsLack(c: char)
    requires c == 'p' || c == 'z' || c == 'k'
    ensures c !in FetchMessageHead && c !in FetchMessageTail
  {
    HeadPiecesLack(c);
    TailPiecesLack(c);
    CharNotInJoin("Invalid ", "f", c);
    CharNotInJoin("Invalid " + "f", "amilyID: ", c);
    CharNotInJoin(". Cannot ", "f", c);
    CharNotInJoin(". Cannot " + "f", "etch items ", c);
    CharNotInJoin(". Cannot " + "f" + "etch items ", "without a valid ", c);
    CharNotInJoin(". Cannot " + "f" + "etch items " + "without a valid ", "f", c);
    CharNotInJoin(". Cannot " + "f" + "etch items " + "without a valid " + "f", "amily ID.", c);
  }

  /** Neither fixed part of the validation message holds "ff". */
  lemma {:induction false} FixedPartsHaveNoDoubleF()
    ensures !HasPair(FetchMessageHead, 'f', 'f') && !HasPair(FetchMessageTail, 'f', 'f')
  {
    NoPairWithout("Invalid ", 'f', 'f');
    NoPairInJoin("Invalid ", "f", 'f', 'f');
    NoPairWithout("amilyID: ", 'f', 'f');
    NoPairInJoin("Invalid " + "f", "amilyID: ", 'f', 'f');
    NoPairWithout(". Cannot ", 'f', 'f');
    NoPairInJoin(". Cannot ", "f", 'f', 'f');
    NoPairWithout("etch items ", 'f', 'f');
    NoPairInJoin(". Cannot " + "f", "etch items ", 'f', 'f');
    NoPairWithout("without a valid ", 'f', 'f');
    NoPairInJoin(". Cannot " + "f" + "etch items ", "without a valid ", 'f', 'f');
    NoPairInJoin(". Cannot " + "f" + "etch items " + "without a valid ", "f", 'f', 'f');
    NoPairWithout("amily ID.", 'f', 'f');
    NoPairInJoin(". Cannot " + "f" + "etch items " + "without a valid " + "f", "amily ID.", 'f', 'f');
  }

  /** The validation message never contains "ff", which "offline" does. */
  lemma {:induction false} InvalidFetchMessageHasNoDoubleF(familyID: Option<string>)
    requires !FetchableID(familyID)
    ensures !HasPair(InvalidFetchMessage(familyID), 'f', 'f')
  {
    var r := Rendered(familyID);
    if familyID.None? {
      NoPairWithout("unde", 'f', 'f');
      NoPairInJoin("unde", "f", 'f', 'f');
      NoPairWithout("ined", 'f', 'f');
      NoPairInJoin("unde" + "f", "ined", 'f', 'f');
      assert r == "unde" + "f" + "ined";
    } else {
      assert forall i :: 0 <= i < |r| ==> IsWhitespace(r[i]);
      NoPairWithout(r, 'f', 'f');
    }
    FixedPartsHaveNoDoubleF();
    NoPairInJoin(FetchMessageHead, r, 'f', 'f');
    NoPairInJoin(FetchMessageHead + r, FetchMessageTail, 'f', 'f');
  }

  /** The validation message lacks 'p', 'z' and 'k', whatever binding it shows. */
  lemma {:induction false} InvalidFetchMessageLacks(familyID: Option<string>, c: char)
    requires !FetchableID(familyID)
    requires c == 'p' || c == 'z' || c == 'k'
    ensures c !in InvalidFetchMessage(familyID)
  {
    var r := Rendered(familyID);
    if familyID.Some? {
      assert forall i :: 0 <= i < |r| ==> IsWhitespace(r[i]);
    }
    FixedPartsLack(c);
    CharNotInJoin(FetchMessageHead, r, c);
    CharNotInJoin(FetchMessageHead + r, FetchMessageTail, c);
  }

  /** The validation message starts with "Invalid familyID". */
  lemma {:induction false} InvalidFetchMessageTagged(familyID: Option<string>)
    ensures OccursAt(InvalidFetchMessage(familyID), "Invalid familyID", 0)
  {
    var m := InvalidFetchMessage(familyID);
    assert FetchMessageHead[0..16] == "Invalid familyID";
    assert m[0..16] == FetchMessageHead[0..16];
  }

  /** The validation message holds none of the words the catch block of `fetchItems` looks for first. */
  lemma {:induction false} InvalidFetchMessageUnflagged(familyID: Option<string>)
    requires !FetchableID(familyID)
    ensures !Contains(InvalidFetchMessage(familyID), "permission")
    ensures !Contains(InvalidFetchMessage(familyID), "unauthorized")
    ensures !Contains(InvalidFetchMessage(familyID), "network")
    ensures !Contains(InvalidFetchMessage(familyID), "offline")
  {
    var m := InvalidFetchMessage(familyID);
    InvalidFetchMessageLacks(familyID, 'p');
    InvalidFetchMessageLacks(familyID, 'z');
    InvalidFetchMessageLacks(familyID, 'k');
    if Contains(m, "permission") {
      ContainedCharsOccur(m, "permission", 0);
    }
    if Contains(m, "unauthorized") {
      ContainedCharsOccur(m, "unauthorized", 9);
    }
    if Contains(m, "network") {
      ContainedCharsOccur(m, "network", 6);
    }
    InvalidFetchMessageHasNoDoubleF(familyID);
    if Contains(m, "offline") {
      ContainedPairsOccur(m, "offline", 1);
    }
  }

  /** The validation error passes through the catch block of `fetchItems` unchanged. */
  lemma {:induction false} ValidationErrorPassesThrough(familyID: Option<string>)
    requires !FetchableID(familyID)
    ensures FetchError(Error(InvalidFetchMessage(familyID))) == Error(InvalidFetchMessage(familyID))
    ensures Contains(InvalidFetchMessage(familyID), "Invalid familyID")
  {
    InvalidFetchMessageUnflagged(familyID);
    InvalidFetchMessageTagged(familyID);
  }
}
