/** The delivery step's "add new address" form
    (`src/components/checkout/DeliveryDetailsSection.tsx`). The component receives the
    saved addresses, the selected id and a selection callback but uses none of them:
    its only output is the address it hands to `onAddNewAddress`. */
module DeliveryDetailsSection {
  import opened Optional
  import opened Addresses

  class DeliveryForm {
    var showAddForm: bool
    var line1: string
    var city: string
    var state: string
    var zip: string

    /** The form is hidden and every field is empty when the section first renders. */
    constructor ()
      ensures IsReset()
    {
      showAddForm := false;
      line1, city, state, zip := "", "", "", "";
    }

    /** The state of a freshly mounted section: form hidden, every field empty. */
    predicate IsReset()
      reads this
    {
      !showAddForm && line1 == "" && city == "" && state == "" && zip == ""
    }

    /** The "Add New Address" button is rendered exactly while the form is hidden. */
    predicate AddButtonShown()
      reads this
    {
      !showAddForm
    }

    /** Every field carries the HTML `required` flag, so the browser lets the form
        submit only when none of them is empty. */
    predicate CanSubmit()
      reads this
    {
      showAddForm && line1 != "" && city != "" && state != "" && zip != ""
    }

    /** Clicking "Add New Address" (only present while the form is hidden) shows the
        form; the typed values are kept. */
    method ClickAddNewAddress()
      modifies this`showAddForm
      ensures showAddForm
    {
      if AddButtonShown() {
        showAddForm := true;
      }
    }

    /** Typing in one of the four inputs, which exist only while the form is shown. */
    method TypeLine1(v: string)
      modifies this`line1
      ensures line1 == if showAddForm then v else old(line1)
    {
      if showAddForm { line1 := v; }
    }

    method TypeCity(v: string)
      modifies this`city
      ensures city == if showAddForm then v else old(city)
    {
      if showAddForm { city := v; }
    }

    method TypeState(v: string)
      modifies this`state
      ensures state == if showAddForm then v else old(state)
    {
      if showAddForm { state := v; }
    }

    method TypeZip(v: string)
      modifies this`zip
      ensures zip == if showAddForm then v else old(zip)
    {
      if showAddForm { zip := v; }
    }

    /** "Cancel" hides the form and leaves what was typed in the fields. */
    method Cancel()
      modifies this`showAddForm
      ensures !showAddForm
    {
      showAddForm := false;
    }

    /** `handleAddAddressSubmit`: hand the typed address, of type `Other`, to the
        parent, then clear the four fields and hide the form. When the browser blocks
        the submission nothing is emitted and nothing changes. */
    method Submit() returns (emitted: Option<NewAddress>)
      modifies this
      ensures emitted.Some? <==> old(CanSubmit())
      ensures emitted.Some? ==>
        && emitted.value == NewAddress(Other, old(line1), old(city), old(state), old(zip))
        && IsReset()
      ensures emitted.None? ==> unchanged(this)
    {
      if !CanSubmit() {
        return None;
      }
      var newAddress := NewAddress(Other, line1, city, state, zip);
      emitted := Some(newAddress);
      line1 := "";
      city := "";
      state := "";
      zip := "";
      showAddForm := false;
    }
  }
}
