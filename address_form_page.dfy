/**
 * The address form page (address-form.html): it adds a new address to the
 * signed-in user's address book or, given an index in its URL, edits an
 * existing one; it checks the fields, stores the trimmed values and keeps
 * at most one address marked as the default.
 */
module AddressFormPage {
  import opened Wrappers
  import opened Strings
  import opened Validators

  /** An address of the address book, as the form edits it and the book stores it. */
  datatype AddressRecord = AddressRecord(
    fullName: string, phone: string, address: string, city: string, state: string,
    zipCode: string, country: string, addressType: string, isDefault: bool)

  /** The blank form: country "Kuwait", type "home", not the default. */
  const BlankForm := AddressRecord("", "", "", "", "", "", "Kuwait", "home", false)

  // ---------------------------------------------------------------------
  // parseInt on the URL's index

  /** The longest run of digits at the start of s. */
  function LeadingDigits(s: string): (r: string)
    ensures AllDigits(r)
    ensures |r| < |s| ==> !IsDigit(s[|r|])
  {
    if s != [] && IsDigit(s[0]) then [s[0]] + LeadingDigits(s[1..]) else []
  }

  /** The value of a run of decimal digits. */
  function DigitsValue(ds: string): nat
    requires AllDigits(ds)
  {
    if ds == [] then 0 else DigitsValue(ds[..|ds| - 1]) * 10 + (ds[|ds| - 1] as int - '0' as int)
  }

  /**
   * JavaScript's parseInt in base 10: leading white space and a sign are
   * skipped, then the leading digits are read; with none, the result is
   * NaN (None), which fails every comparison.
   */
  function ParseInt(s: string): Option<int>
  {
    var t := TrimStart(s);
    var negative := |t| > 0 && t[0] == '-';
    var body := if |t| > 0 && (t[0] == '-' || t[0] == '+') then t[1..] else t;
    var ds := LeadingDigits(body);
    if ds == [] then None
    else
      var v: int := DigitsValue(ds);
      Some(if negative then -v else v)
  }

  /** A plain run of digits reads as its decimal value. */
  lemma ParseIntOfDigits(ds: string)
    requires ds != [] && AllDigits(ds)
    ensures ParseInt(ds) == Some(DigitsValue(ds))
  {
    assert !IsSpace(ds[0]) && ds[0] != '-' && ds[0] != '+';
    assert TrimStart(ds) == ds;
    LeadingDigitsOfDigits(ds);
  }

  lemma {:induction false} LeadingDigitsOfDigits(ds: string)
    requires AllDigits(ds)
    ensures LeadingDigits(ds) == ds
    decreases |ds|
  {
    if ds != [] {
      LeadingDigitsOfDigits(ds[1..]);
    }
  }

  /** The index parameter puts the form in edit mode only when it reads as a position of the book. */
  function EditIndex(index: Option<string>, book: seq<AddressRecord>): (r: Option<nat>)
    ensures r.Some? ==> r.value < |book|
    ensures r.Some? <==> index.Some? && |book| > 0 && ParseInt(index.value).Some?
                          && 0 <= ParseInt(index.value).value < |book|
  {
    if index.Some? && |book| > 0 then
      match ParseInt(index.value)
      case Some(v) => if 0 <= v < |book| then Some(v as nat) else None
      case None => None
    else None
  }

  // ---------------------------------------------------------------------
  // The form check

  /** The length trim() leaves, counted without building the trimmed string. */
  function TrimmedLength(s: string): nat
  {
    if |s| > 0 && IsSpace(s[0]) then TrimmedLength(s[1..]) else KeptBeforeTrailingSpace(s)
  }

  function KeptBeforeTrailingSpace(s: string): nat
  {
    if |s| > 0 && IsSpace(s[|s| - 1]) then KeptBeforeTrailingSpace(s[..|s| - 1]) else |s|
  }

  lemma {:induction false} KeptIsTrimEnd(s: string)
    ensures KeptBeforeTrailingSpace(s) == |TrimEnd(s)|
    decreases |s|
  {
    if |s| > 0 && IsSpace(s[|s| - 1]) {
      KeptIsTrimEnd(s[..|s| - 1]);
    }
  }

  /** TrimmedLength is the length of the trimmed string. */
  lemma {:induction false} TrimmedLengthIsTrim(s: string)
    ensures TrimmedLength(s) == |Trim(s)|
    decreases |s|
  {
    if |s| > 0 && IsSpace(s[0]) {
      TrimmedLengthIsTrim(s[1..]);
    } else {
      KeptIsTrimEnd(s);
    }
  }

  function FieldTooShort(s: string, n: nat): bool
  {
    TrimmedLength(s) < n
  }

  function PhoneCheck(phone: string): Option<string>
  {
    if phone == "" then Some("Phone number is required")
    else if !IsValidPhone(phone) then Some("Please enter a valid phone number")
    else None
  }

  function Require(tooShort: bool, message: string): Option<string>
  {
    if tooShort then Some(message) else None
  }

  /** Each field's message, in the order the form is checked. */
  function AddressChecks(f: AddressRecord): seq<(string, Option<string>)>
  {
    [("fullName", Require(FieldTooShort(f.fullName, 2), "Full name must be at least 2 characters")),
     ("phone", PhoneCheck(f.phone)),
     ("address", Require(FieldTooShort(f.address, 5), "Street address must be at least 5 characters")),
     ("city", Require(FieldTooShort(f.city, 2), "City is required")),
     ("state", Require(FieldTooShort(f.state, 2), "State/Province is required")),
     ("zipCode", Require(FieldTooShort(f.zipCode, 3), "ZIP/Postal code is required")),
     ("country", Require(FieldTooShort(f.country, 2), "Country is required"))]
  }

  function AddressErrors(f: AddressRecord): map<string, string>
  {
    NoteAll(map[], AddressChecks(f), 7)
  }

  /**
   * The form passes exactly when, trimmed (TrimmedLengthIsTrim), the name
   * has at least 2 characters, the street 5, the city, state and country 2
   * and the ZIP code 3, and the phone is present and valid.
   */
  lemma AddressErrorsIff(f: AddressRecord)
    ensures AddressErrors(f) == map[] <==>
      TrimmedLength(f.fullName) >= 2 && f.phone != "" && IsValidPhone(f.phone) && TrimmedLength(f.address) >= 5
      && TrimmedLength(f.city) >= 2 && TrimmedLength(f.state) >= 2 && TrimmedLength(f.zipCode) >= 3
      && TrimmedLength(f.country) >= 2
  {
    AddressErrorsEmptyIff(f);
    var c := AddressChecks(f);
    assert c[1].1.None? <==> f.phone != "" && IsValidPhone(f.phone);
    assert (forall j :: 0 <= j < 7 ==> c[j].1.None?) <==>
      c[0].1.None? && c[1].1.None? && c[2].1.None? && c[3].1.None? && c[4].1.None? && c[5].1.None? && c[6].1.None?;
  }

  /** The address error map is empty exactly when no field has a message. */
  lemma AddressErrorsEmptyIff(f: AddressRecord)
    ensures AddressErrors(f) == map[] <==> forall j :: 0 <= j < 7 ==> AddressChecks(f)[j].1.None?
  {
    NoteAllEmptyIff(AddressChecks(f), 7);
  }

  /** The stored form: every text field trimmed, the type and the default flag as they are. */
  function Trimmed(f: AddressRecord): AddressRecord
  {
    var t := TrimEach([f.fullName, f.phone, f.address, f.city, f.state, f.zipCode, f.country]);
    AddressRecord(t[0], t[1], t[2], t[3], t[4], t[5], t[6], f.addressType, f.isDefault)
  }

  /** trim() applied to each string. */
  function TrimEach(fields: seq<string>): (r: seq<string>)
    ensures |r| == |fields|
  {
    if fields == [] then [] else [Trim(fields[0])] + TrimEach(fields[1..])
  }

  lemma {:induction false} TrimEachSpec(fields: seq<string>)
    ensures forall i :: 0 <= i < |fields| ==> TrimEach(fields)[i] == Trim(fields[i])
    decreases |fields|
  {
    if fields != [] {
      TrimEachSpec(fields[1..]);
    }
  }

  /** Saving stores each text field trimmed and keeps the type and the default flag. */
  lemma TrimmedSpec(f: AddressRecord)
    ensures var r := Trimmed(f);
      r.fullName == Trim(f.fullName) && r.phone == Trim(f.phone) && r.address == Trim(f.address)
      && r.city == Trim(f.city) && r.state == Trim(f.state) && r.zipCode == Trim(f.zipCode)
      && r.country == Trim(f.country) && r.addressType == f.addressType && r.isDefault == f.isDefault
  {
    TrimEachSpec([f.fullName, f.phone, f.address, f.city, f.state, f.zipCode, f.country]);
  }

  // ---------------------------------------------------------------------
  // Saving into the address book

  /** The book with the record written at the edited position, or appended. */
  function Placed(book: seq<AddressRecord>, edit: Option<nat>, data: AddressRecord): seq<AddressRecord>
    requires edit.Some? ==> edit.value < |book|
  {
    if edit.Some? then book[edit.value := data] else book + [data]
  }

  /** The position the record was written at. */
  function Target(book: seq<AddressRecord>, edit: Option<nat>): nat
  {
    if edit.Some? then edit.value else |book|
  }

  /** Every address but the one at target loses its default flag. */
  function ClearOthers(book: seq<AddressRecord>, target: nat): (r: seq<AddressRecord>)
    ensures |r| == |book|
  {
    seq(|book|, i requires 0 <= i < |book| => if i == target then book[i] else book[i].(isDefault := false))
  }

  function SaveInto(book: seq<AddressRecord>, edit: Option<nat>, data: AddressRecord): seq<AddressRecord>
    requires edit.Some? ==> edit.value < |book|
  {
    var p := Placed(book, edit, data);
    if data.isDefault then ClearOthers(p, Target(book, edit)) else p
  }

  predicate AtMostOneDefault(book: seq<AddressRecord>)
  {
    forall i, j :: 0 <= i < j < |book| ==> !(book[i].isDefault && book[j].isDefault)
  }

  /**
   * Saving writes the record at the edited position (same length) or at
   * the end (one longer); a default record leaves every other address
   * non-default, with everything else about them unchanged.
   */
  lemma SaveIntoSpec(book: seq<AddressRecord>, edit: Option<nat>, data: AddressRecord)
    requires edit.Some? ==> edit.value < |book|
    ensures var r := SaveInto(book, edit, data);
      var t := Target(book, edit);
      (edit.Some? ==> |r| == |book|) && (edit.None? ==> |r| == |book| + 1)
      && t < |r| && r[t] == data
      && (forall i :: 0 <= i < |r| && i != t ==>
            r[i] == (if data.isDefault then book[i].(isDefault := false) else book[i]))
      && (data.isDefault ==> forall i :: 0 <= i < |r| && i != t ==> !r[i].isDefault)
  {
  }

  /** Saving never leaves two defaults behind, whatever is saved. */
  lemma SaveKeepsAtMostOneDefault(book: seq<AddressRecord>, edit: Option<nat>, data: AddressRecord)
    requires edit.Some? ==> edit.value < |book|
    requires AtMostOneDefault(book)
    ensures AtMostOneDefault(SaveInto(book, edit, data))
  {
    SaveIntoSpec(book, edit, data);
    var r := SaveInto(book, edit, data);
    var t := Target(book, edit);
    forall i, j | 0 <= i < j < |r| ensures !(r[i].isDefault && r[j].isDefault) {
      if !data.isDefault && i != t && j != t {
        assert r[i] == book[i] && r[j] == book[j];
      }
    }
  }

  class AddressFormPage {
    var userEmail: string
    var isEditMode: bool
    var addressIndex: Option<nat>
    var addressForm: AddressRecord
    var formErrors: map<string, string>
    var formError: string
    var formSuccess: string
    var isSubmitting: bool
    var addresses: seq<AddressRecord>
    /** The user's stored book ('shopvue_addresses_' + e-mail). */
    var storedAddresses: Stored<seq<AddressRecord>>
    /** The stored delivery address ('shopvue_delivery_address'). */
    var storedDelivery: Option<AddressRecord>

    /** In edit mode the edited position lies within the book. */
    predicate Valid()
      reads this
    {
      isEditMode ==> addressIndex.Some? && addressIndex.value < |addresses|
    }

    /** Mounting: the book is loaded, then the URL's index is checked. */
    constructor (email: string, stored: Stored<seq<AddressRecord>>, delivery: Option<AddressRecord>, index: Option<string>)
      ensures Valid()
      ensures userEmail == email && storedAddresses == stored && storedDelivery == delivery
      ensures email == "" ==> addresses == []
      ensures email != "" && stored.Present? && stored.value != [] ==> addresses == stored.value
      ensures email != "" && !(stored.Present? && stored.value != []) && delivery.Some? ==> addresses == [delivery.value]
      ensures email != "" && !(stored.Present? && stored.value != []) && delivery.None? ==> addresses == []
      ensures isEditMode <==> EditIndex(index, addresses).Some?
      ensures isEditMode ==> addressIndex == EditIndex(index, addresses) && addressForm == addresses[addressIndex.value]
      ensures !isEditMode ==> addressForm == BlankForm
    {
      userEmail := email;
      isEditMode := false;
      addressIndex := None;
      addressForm := BlankForm;
      formErrors := map[];
      formError, formSuccess := "", "";
      isSubmitting := false;
      addresses := [];
      storedAddresses := stored;
      storedDelivery := delivery;
      new;
      LoadAddresses();
      CheckEditMode(index);
    }

    /**
     * Loads the user's book; a book that does not parse empties it, and an
     * absent one leaves it as it is. When the book is then empty and a
     * delivery address is stored, it becomes that one address. Without a
     * signed-in e-mail nothing is loaded.
     */
    method LoadAddresses()
      modifies this`addresses
      ensures userEmail == "" ==> addresses == old(addresses)
      ensures userEmail != "" ==>
        var loaded := match storedAddresses
          case Present(book) => book
          case Corrupt => []
          case Absent => old(addresses);
        addresses == (if loaded == [] && storedDelivery.Some? then [storedDelivery.value] else loaded)
    {
      if userEmail == "" {
        return;
      }
      match storedAddresses {
        case Present(book) => addresses := book;
        case Corrupt => addresses := [];
        case Absent =>
      }
      if storedDelivery.Some? && |addresses| == 0 {
        addresses := [storedDelivery.value];
      }
    }

    /** Enters edit mode for a URL index that reads as a position of the book, loading that address into the form. */
    method CheckEditMode(index: Option<string>)
      requires Valid()
      modifies this`isEditMode, this`addressIndex, this`addressForm
      ensures Valid()
      ensures EditIndex(index, addresses).Some? ==>
        isEditMode && addressIndex == EditIndex(index, addresses) && addressForm == addresses[addressIndex.value]
      ensures EditIndex(index, addresses).None? ==>
        isEditMode == old(isEditMode) && addressIndex == old(addressIndex) && addressForm == old(addressForm)
    {
      if index.Some? && |addresses| > 0 {
        var parsed := ParseInt(index.value);
        if parsed.Some? && parsed.value >= 0 && parsed.value < |addresses| {
          isEditMode := true;
          addressIndex := Some(parsed.value as nat);
          addressForm := addresses[parsed.value];
        }
      }
    }

    /** Fills the error map field by field; the form passes when it stays empty. */
    method ValidateForm() returns (isValid: bool)
      modifies this`formErrors
      ensures formErrors == AddressErrors(addressForm)
      ensures isValid <==> formErrors == map[]
    {
      formErrors, isValid := NoteEach(AddressChecks(addressForm));
    }

    /**
     * Saving. A form that fails its check sets 'Please fix the errors in
     * the form' and changes no address. Otherwise the trimmed record is
     * written over the edited address or appended; a default record then
     * clears the flag on every other address; the book is stored, and a
     * default record is also stored as the delivery address.
     */
    method HandleSubmit()
      requires Valid()
      modifies this`formErrors, this`formError, this`formSuccess, this`isSubmitting, this`addresses,
               this`storedAddresses, this`storedDelivery
      ensures Valid()
      ensures formErrors == AddressErrors(old(addressForm)) && addressForm == old(addressForm)
      ensures isEditMode == old(isEditMode) && addressIndex == old(addressIndex)
      ensures AddressErrors(addressForm) != map[] ==>
        formError == "Please fix the errors in the form" && formSuccess == ""
        && addresses == old(addresses) && storedAddresses == old(storedAddresses)
        && storedDelivery == old(storedDelivery) && isSubmitting == old(isSubmitting)
      ensures AddressErrors(addressForm) == map[] ==>
        var data := Trimmed(addressForm);
        var edit := if isEditMode then addressIndex else None;
        addresses == SaveInto(old(addresses), edit, data)
        && storedAddresses == Present(addresses)
        && storedDelivery == (if data.isDefault then Some(data) else old(storedDelivery))
        && formError == ""
        && formSuccess == (if isEditMode then "Address updated successfully!" else "Address added successfully!")
        && !isSubmitting
    {
      formError := "";
      formSuccess := "";
      var ok := ValidateForm();
      if !ok {
        formError := "Please fix the errors in the form";
        return;
      }
      SaveChecked();
    }

    /** The part of saving that follows a passed check. */
    method SaveChecked()
      requires Valid()
      modifies this`addresses, this`storedAddresses, this`storedDelivery, this`formSuccess, this`isSubmitting
      ensures Valid()
      ensures var data := Trimmed(addressForm);
        var edit := if isEditMode then addressIndex else None;
        addresses == SaveInto(old(addresses), edit, data)
        && storedAddresses == Present(addresses)
        && storedDelivery == (if data.isDefault then Some(data) else old(storedDelivery))
        && formSuccess == (if isEditMode then "Address updated successfully!" else "Address added successfully!")
        && !isSubmitting
    {
      isSubmitting := true;
      var data := Trimmed(addressForm);
      var edit := if isEditMode then addressIndex else None;
      Save(edit, data);
      formSuccess := if isEditMode then "Address updated successfully!" else "Address added successfully!";
      isSubmitting := false;
    }

    /**
     * Writes a checked record over the edited address or after the last
     * one, clears the default flag on every other address when the record
     * is the default, and stores the book (and a default record as the
     * delivery address).
     */
    method Save(edit: Option<nat>, data: AddressRecord)
      requires edit.Some? ==> edit.value < |addresses|
      modifies this`addresses, this`storedAddresses, this`storedDelivery
      ensures addresses == SaveInto(old(addresses), edit, data)
      ensures |addresses| == if edit.Some? then |old(addresses)| else |old(addresses)| + 1
      ensures storedAddresses == Present(addresses)
      ensures storedDelivery == (if data.isDefault then Some(data) else old(storedDelivery))
    {
      var target := Target(addresses, edit);
      if edit.Some? {
        addresses := addresses[edit.value := data];
      } else {
        addresses := addresses + [data];
      }
      if data.isDefault {
        var placed := addresses;
        var i := 0;
        while i < |addresses|
          invariant 0 <= i <= |addresses| == |placed|
          invariant forall k :: 0 <= k < i ==>
            addresses[k] == (if k == target then placed[k] else placed[k].(isDefault := false))
          invariant forall k :: i <= k < |addresses| ==> addresses[k] == placed[k]
        {
          if i != target {
            addresses := addresses[i := addresses[i].(isDefault := false)];
          }
          i := i + 1;
        }
        assert addresses == ClearOthers(placed, target);
      }
      storedAddresses := Present(addresses);
      if data.isDefault {
        storedDelivery := Some(data);
      }
    }
  }
}
