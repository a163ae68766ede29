/** opinion-hub-frontend/components/AccessManagementModal.tsx: the editor for a
    restricted survey's allow-list. The user types an address, adds it to the
    pending "grant" or "revoke" list, and sends a whole list to the registry
    in one transaction. */
module AccessModal {
  import opened Base

  // ---------------------------------------------------------------------
  // validateAddress (AccessManagementModal.tsx:49-51)

  predicate IsHexDigit(c: char) {
    ('0' <= c <= '9') || ('a' <= c <= 'f') || ('A' <= c <= 'F')
  }

  /** `/^0x[a-fA-F0-9]{40}$/.test(address)`: "0x" and exactly forty hex
      digits of either case. No EIP-55 checksum is checked. */
  predicate ValidateAddress(address: string) {
    && |address| == 42
    && address[0] == '0' && address[1] == 'x'
    && forall i :: 2 <= i < 42 ==> IsHexDigit(address[i])
  }

  /** Changing the case of the hex letters keeps an address valid: the
      lower-cased and the original spelling of one account both pass, which
      is why case variants can sit in one pending list together. */
  lemma LowerCasedAddressValid(address: string)
    requires ValidateAddress(address)
    ensures ValidateAddress(ToLower(address))
  {
  }

  // ---------------------------------------------------------------------
  // Pending lists

  const InvalidFormatError := "Invalid Ethereum address format"
  const DuplicateError := "Address already in the list"

  predicate NoDuplicates(list: seq<string>) {
    forall i, j :: 0 <= i < j < |list| ==> list[i] != list[j]
  }

  /** What the modal keeps true of each pending list. */
  predicate WellFormedList(list: seq<string>) {
    NoDuplicates(list) && forall i :: 0 <= i < |list| ==> ValidateAddress(list[i])
  }

  datatype AddOutcome = Ignored | Rejected(message: string) | Appended(list: seq<string>)

  /** One press of an "add" button on a pending list: blank input is ignored,
      a malformed or already listed address is refused with its message,
      anything else is appended. */
  function AddToList(list: seq<string>, input: string): (r: AddOutcome)
    ensures r == Ignored <==> IsBlank(input)
    ensures r == Rejected(InvalidFormatError) <==> !IsBlank(input) && !ValidateAddress(input)
    ensures r == Rejected(DuplicateError) <==> !IsBlank(input) && ValidateAddress(input) && input in list
    ensures r.Appended? ==> r.list == list + [input]
  {
    if IsBlank(input) then Ignored
    else if !ValidateAddress(input) then Rejected(InvalidFormatError)
    else if input in list then Rejected(DuplicateError)
    else Appended(list + [input])
  }

  /** Adding keeps a pending list free of duplicates and of malformed
      entries. */
  lemma AddKeepsWellFormed(list: seq<string>, input: string)
    requires WellFormedList(list)
    ensures AddToList(list, input).Appended? ==> WellFormedList(AddToList(list, input).list)
  {
  }

  /** `list.filter(addr => addr !== address)`. */
  function RemoveAll(list: seq<string>, address: string): (r: seq<string>)
    ensures address !in r
    ensures forall x :: x in r <==> x in list && x != address
    ensures |r| <= |list|
  {
    if list == [] then []
    else (if list[0] == address then [] else [list[0]]) + RemoveAll(list[1..], address)
  }

  /** Removal distributes over concatenation: the entries kept stay in their
      original order. */
  lemma {:induction false} RemoveAllAppend(xs: seq<string>, ys: seq<string>, address: string)
    ensures RemoveAll(xs + ys, address) == RemoveAll(xs, address) + RemoveAll(ys, address)
  {
    if xs != [] {
      assert (xs + ys)[1..] == xs[1..] + ys;
      RemoveAllAppend(xs[1..], ys, address);
    } else {
      assert xs + ys == ys;
    }
  }

  /** Removing an address that is not listed changes nothing. */
  lemma {:induction false} RemoveAbsent(list: seq<string>, address: string)
    requires address !in list
    ensures RemoveAll(list, address) == list
  {
    if list != [] {
      RemoveAbsent(list[1..], address);
    }
  }

  /** Adding an address and removing it again restores the list. */
  lemma AddThenRemove(list: seq<string>, input: string)
    requires AddToList(list, input).Appended?
    ensures RemoveAll(AddToList(list, input).list, input) == list
  {
    RemoveAllAppend(list, [input], input);
    RemoveAbsent(list, input);
  }

  /** Removal keeps a pending list well formed. */
  lemma {:induction false} RemoveKeepsWellFormed(list: seq<string>, address: string)
    requires WellFormedList(list)
    ensures WellFormedList(RemoveAll(list, address))
  {
    if list != [] {
      RemoveKeepsWellFormed(list[1..], address);
      var rest := RemoveAll(list[1..], address);
      assert list[0] !in rest;
    }
  }

  // ---------------------------------------------------------------------
  // The modal's state (AccessManagementModal.tsx:42-47) and handlers.
  // An async handler is split at its `await`: Begin* runs up to the remote
  // call and returns what it sends, Finish* runs from the call's outcome.

  class AccessManagementModal {
    var newAddress: string
    var addressesToGrant: seq<string>
    var addressesToRevoke: seq<string>
    var isGranting: bool
    var isRevoking: bool
    var error: string

    ghost predicate Valid()
      reads this
    {
      WellFormedList(addressesToGrant) && WellFormedList(addressesToRevoke)
    }

    constructor ()
      ensures Valid()
      ensures newAddress == "" && addressesToGrant == [] && addressesToRevoke == []
      ensures !isGranting && !isRevoking && error == ""
    {
      newAddress := "";
      addressesToGrant := [];
      addressesToRevoke := [];
      isGranting := false;
      isRevoking := false;
      error := "";
    }

    /** The address input's change handler. */
    method SetNewAddress(value: string)
      modifies this`newAddress
      ensures newAddress == value
    {
      newAddress := value;
    }

    /** `addAddressToGrant` (lines 53-69). */
    method AddAddressToGrant()
      requires Valid()
      modifies this`addressesToGrant, this`newAddress, this`error
      ensures Valid()
      ensures IsBlank(old(newAddress)) ==> unchanged(this)
      ensures !IsBlank(old(newAddress)) && !ValidateAddress(old(newAddress)) ==>
        error == InvalidFormatError && addressesToGrant == old(addressesToGrant) && newAddress == old(newAddress)
      ensures !IsBlank(old(newAddress)) && ValidateAddress(old(newAddress)) && old(newAddress) in old(addressesToGrant) ==>
        error == DuplicateError && addressesToGrant == old(addressesToGrant) && newAddress == old(newAddress)
      ensures AddToList(old(addressesToGrant), old(newAddress)).Appended? ==>
        addressesToGrant == old(addressesToGrant) + [old(newAddress)] && newAddress == "" && error == ""
    {
      AddKeepsWellFormed(addressesToGrant, newAddress);
      match AddToList(addressesToGrant, newAddress)
      case Ignored =>
      case Rejected(message) => error := message;
      case Appended(list) =>
        addressesToGrant := list;
        newAddress := "";
        error := "";
    }

    /** `removeAddressFromGrant` (lines 71-73). */
    method RemoveAddressFromGrant(address: string)
      requires Valid()
      modifies this`addressesToGrant
      ensures Valid()
      ensures addressesToGrant == RemoveAll(old(addressesToGrant), address)
    {
      RemoveKeepsWellFormed(addressesToGrant, address);
      addressesToGrant := RemoveAll(addressesToGrant, address);
    }

    /** `addAddressToRevoke` (lines 75-91). */
    method AddAddressToRevoke()
      requires Valid()
      modifies this`addressesToRevoke, this`newAddress, this`error
      ensures Valid()
      ensures IsBlank(old(newAddress)) ==> unchanged(this)
      ensures !IsBlank(old(newAddress)) && !ValidateAddress(old(newAddress)) ==>
        error == InvalidFormatError && addressesToRevoke == old(addressesToRevoke) && newAddress == old(newAddress)
      ensures !IsBlank(old(newAddress)) && ValidateAddress(old(newAddress)) && old(newAddress) in old(addressesToRevoke) ==>
        error == DuplicateError && addressesToRevoke == old(addressesToRevoke) && newAddress == old(newAddress)
      ensures AddToList(old(addressesToRevoke), old(newAddress)).Appended? ==>
        addressesToRevoke == old(addressesToRevoke) + [old(newAddress)] && newAddress == "" && error == ""
    {
      AddKeepsWellFormed(addressesToRevoke, newAddress);
      match AddToList(addressesToRevoke, newAddress)
      case Ignored =>
      case Rejected(message) => error := message;
      case Appended(list) =>
        addressesToRevoke := list;
        newAddress := "";
        error := "";
    }

    /** `removeAddressFromRevoke` (lines 93-95). */
    method RemoveAddressFromRevoke(address: string)
      requires Valid()
      modifies this`addressesToRevoke
      ensures Valid()
      ensures addressesToRevoke == RemoveAll(old(addressesToRevoke), address)
    {
      RemoveKeepsWellFormed(addressesToRevoke, address);
      addressesToRevoke := RemoveAll(addressesToRevoke, address);
    }

    /** `handleGrantAccess` up to `await onGrantAccess(...)` (lines 97-102):
        nothing happens for an empty list; otherwise the list is sent. */
    method BeginGrantAccess() returns (sent: Option<seq<string>>)
      modifies this`isGranting
      ensures old(addressesToGrant) == [] ==> sent == None && unchanged(this)
      ensures old(addressesToGrant) != [] ==> sent == Some(addressesToGrant) && isGranting
    {
      if addressesToGrant == [] {
        sent := None;
        return;
      }
      isGranting := true;
      sent := Some(addressesToGrant);
    }

    /** The rest of `handleGrantAccess` (lines 103-108): the list is cleared
        only when the transaction succeeded; `isGranting` is always reset. */
    method FinishGrantAccess(succeeded: bool)
      requires Valid()
      modifies this`isGranting, this`addressesToGrant
      ensures Valid()
      ensures !isGranting
      ensures addressesToGrant == if succeeded then [] else old(addressesToGrant)
    {
      if succeeded {
        addressesToGrant := [];
      }
      isGranting := false;
    }

    /** `handleRevokeAccess` up to its `await` (lines 111-116). */
    method BeginRevokeAccess() returns (sent: Option<seq<string>>)
      modifies this`isRevoking
      ensures old(addressesToRevoke) == [] ==> sent == None && unchanged(this)
      ensures old(addressesToRevoke) != [] ==> sent == Some(addressesToRevoke) && isRevoking
    {
      if addressesToRevoke == [] {
        sent := None;
        return;
      }
      isRevoking := true;
      sent := Some(addressesToRevoke);
    }

    /** The rest of `handleRevokeAccess` (lines 117-122). */
    method FinishRevokeAccess(succeeded: bool)
      requires Valid()
      modifies this`isRevoking, this`addressesToRevoke
      ensures Valid()
      ensures !isRevoking
      ensures addressesToRevoke == if succeeded then [] else old(addressesToRevoke)
    {
      if succeeded {
        addressesToRevoke := [];
      }
      isRevoking := false;
    }

    /** `handleClose` (lines 125-133): ignored while a transaction is in
        flight; otherwise the modal closes and its inputs are reset. */
    method HandleClose() returns (closed: bool)
      requires Valid()
      modifies this`newAddress, this`addressesToGrant, this`addressesToRevoke, this`error
      ensures Valid()
      ensures closed <==> !isGranting && !isRevoking
      ensures !closed ==> unchanged(this)
      ensures closed ==> newAddress == "" && addressesToGrant == [] && addressesToRevoke == [] && error == ""
    {
      closed := !isGranting && !isRevoking;
      if closed {
        newAddress := "";
        addressesToGrant := [];
        addressesToRevoke := [];
        error := "";
      }
    }
  }
}
