/** The profile screen (`src/pages/UserProfileScreen.tsx`): the user's three editable
    fields, the saved address list, a read-only order list and the edit-mode flag. */
module UserProfileScreen {
  import opened Optional
  import opened Text
  import opened Addresses
  import opened OrderHistoryTable

  const PlaceholderAddresses: seq<Address> := [
    Address("addr1", Home, "123 Main St", None, "Anytown", "CA", "90210", Some(true)),
    Address("addr2", Work, "456 Business Rd", None, "Busytown", "NY", "10001", None)
  ]

  /** The dummy address "Add New" appends; its id is `addr` followed by the clock
      reading `stamp`. */
  function DummyAddress(stamp: string): (a: Address)
    ensures a.id == "addr" + stamp && a.kind == Other && a.line2.None? && a.isDefault.None?
  {
    Address("addr" + stamp, Other, "New Address Line 1", None, "New City", "NS", "00000", None)
  }

  /** The list `handleAddAddress` sets: one address of type `Other` after all the
      existing ones, which are left as they were. */
  function WithDummyAddress(list: seq<Address>, stamp: string): (r: seq<Address>)
    ensures |r| == |list| + 1
    ensures r[..|list|] == list
    ensures r[|list|].kind == Other && r[|list|].id == "addr" + stamp
  {
    list + [DummyAddress(stamp)]
  }

  /** Adding an address whose id is new, then deleting that id, restores the list. */
  lemma AddThenDeleteRestores(list: seq<Address>, stamp: string)
    requires !HasId(list, "addr" + stamp)
    ensures DeleteById(WithDummyAddress(list, stamp), "addr" + stamp) == list
  {
    DeleteUndoesAppend(list, DummyAddress(stamp));
  }

  /** The avatar fallback: the first two characters of the name, upper-cased. */
  function AvatarInitials(userName: string): (r: string)
    ensures |r| == if |userName| < 2 then |userName| else 2
    ensures forall i :: 0 <= i < |r| ==> r[i] == UpperChar(userName[i])
    ensures forall i :: 0 <= i < |r| ==> !IsLower(r[i])
  {
    Upper(Take(userName, 2))
  }

  lemma InitialsExamples()
    ensures AvatarInitials("John Doe") == "JO"
    ensures AvatarInitials("j") == "J"
    ensures AvatarInitials("") == ""
  {
  }

  class ProfileScreen {
    var userName: string
    var userEmail: string
    var userPhone: string
    var addresses: seq<Address>
    const orders: seq<Order>
    var isEditingProfile: bool

    constructor ()
      ensures userName == "John Doe" && userEmail == "john.doe@example.com" && userPhone == "555-123-4567"
      ensures addresses == PlaceholderAddresses && orders == PlaceholderOrders
      ensures !isEditingProfile
    {
      userName, userEmail, userPhone := "John Doe", "john.doe@example.com", "555-123-4567";
      addresses := PlaceholderAddresses;
      orders := PlaceholderOrders;
      isEditingProfile := false;
    }

    /** The edit button in the header flips edit mode. */
    method ToggleEdit()
      modifies this`isEditingProfile
      ensures isEditingProfile == !old(isEditingProfile)
    {
      isEditingProfile := !isEditingProfile;
    }

    /** The three inputs of the edit card, rendered only in edit mode; nothing the user
        types is checked. */
    method TypeName(v: string)
      modifies this`userName
      ensures userName == if isEditingProfile then v else old(userName)
    {
      if isEditingProfile { userName := v; }
    }

    method TypeEmail(v: string)
      modifies this`userEmail
      ensures userEmail == if isEditingProfile then v else old(userEmail)
    {
      if isEditingProfile { userEmail := v; }
    }

    method TypePhone(v: string)
      modifies this`userPhone
      ensures userPhone == if isEditingProfile then v else old(userPhone)
    {
      if isEditingProfile { userPhone := v; }
    }

    /** `handleSaveProfile`: leaves edit mode and keeps the fields as typed. */
    method SaveProfile()
      modifies this`isEditingProfile
      ensures !isEditingProfile
    {
      isEditingProfile := false;
    }

    /** The edit card's "Cancel": leaves edit mode, and also keeps what was typed,
        since the fields were written as the user typed. */
    method CancelEdit()
      modifies this`isEditingProfile
      ensures !isEditingProfile
    {
      isEditingProfile := false;
    }

    /** `handleAddAddress`: append the dummy address, of type `Other`, at the end. */
    method AddAddress(stamp: string)
      modifies this`addresses
      ensures addresses == WithDummyAddress(old(addresses), stamp)
    {
      addresses := WithDummyAddress(addresses, stamp);
    }

    /** `handleEditAddress` only shows a notification. */
    method EditAddress(id: string)
    {
    }

    /** `handleDeleteAddress`. */
    method DeleteAddress(id: string)
      modifies this`addresses
      ensures addresses == DeleteById(old(addresses), id)
    {
      addresses := DeleteById(addresses, id);
    }

    /** The saved-addresses card lists the addresses or reads "No saved addresses.";
        the order card renders the unchanging order list. */
    predicate ShowsNoSavedAddresses()
      reads this
    {
      |addresses| == 0
    }

    function OrderHistoryView(): HistoryView
      reads this
    {
      Render(orders)
    }
  }

  /** Adding an address under an id no saved address has, then deleting that id,
      gives back the list the screen had. */
  method AddThenDelete(screen: ProfileScreen, stamp: string)
    requires !HasId(screen.addresses, "addr" + stamp)
    modifies screen
    ensures screen.addresses == old(screen.addresses)
  {
    ghost var before := screen.addresses;
    screen.AddAddress(stamp);
    screen.DeleteAddress("addr" + stamp);
    AddThenDeleteRestores(before, stamp);
  }
}
