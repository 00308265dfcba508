/**
 * How a delivery address is shown: the header line the address-form,
 * account and home pages share, and the fuller line of the location
 * picker. An absent field is the empty string, as JavaScript treats an
 * undefined or empty field alike.
 */
module Addresses {
  import opened Strings

  /** The place parts of an address. */
  datatype Place = Place(address: string, city: string, state: string, zipCode: string, country: string)

  /** A stored delivery address is either a plain string or an address record. */
  datatype Located = Text(text: string) | Record(place: Place)

  const NoPlace := Place("", "", "", "", "")

  /** Cuts a street to 30 characters, marking a cut with "...". */
  function Abbreviate(street: string): (r: string)
    ensures |street| <= 30 ==> r == street
    ensures |street| > 30 ==> |r| == 33 && r[..30] == street[..30] && r[30..] == "..."
  {
    if |street| > 30 then street[..30] + "..." else street
  }

  /** The header line for a delivery address. */
  function FormatDeliveryAddress(a: Located): (r: string)
  {
    match a
    case Text(s) => s
    case Record(p) =>
      var parts := Present([p.city, p.state, p.country]);
      if parts == [] && p.address != "" then Abbreviate(p.address)
      else
        var joined := Join(parts, ", ");
        if joined == "" then "Select location" else joined
  }

  /**
   * The header line shows a string as it is; otherwise the set city, state
   * and country joined with ", "; failing those, the street, cut at 30
   * characters; failing everything, "Select location". A record never
   * shows as empty.
   */
  lemma FormatDeliveryAddressSpec(a: Located)
    ensures a.Text? ==> FormatDeliveryAddress(a) == a.text
    ensures a.Record? ==> FormatDeliveryAddress(a) != ""
    ensures a.Record? && Present([a.place.city, a.place.state, a.place.country]) != [] ==>
      FormatDeliveryAddress(a) == Join(Present([a.place.city, a.place.state, a.place.country]), ", ")
    ensures a.Record? && a.place.city != "" ==> a.place.city <= FormatDeliveryAddress(a)
    ensures a.Record? && Present([a.place.city, a.place.state, a.place.country]) == [] && a.place.address != "" ==>
      FormatDeliveryAddress(a) == Abbreviate(a.place.address)
    ensures a.Record? && Present([a.place.city, a.place.state, a.place.country]) == [] && a.place.address == "" ==>
      FormatDeliveryAddress(a) == "Select location"
  {
    if a.Record? {
      var p := a.place;
      var parts := Present([p.city, p.state, p.country]);
      JoinPresentEmptyIff(parts, ", ");
      if p.city != "" {
        assert parts == [p.city] + Present([p.state, p.country]);
      }
    }
  }

  /** The picker's line for a saved address: every set part, street first, joined with ", ". */
  function FormatAddress(p: Place): (r: string)
  {
    var joined := Join(Present([p.address, p.city, p.state, p.zipCode, p.country]), ", ");
    if joined == "" then "Address not specified" else joined
  }

  /**
   * The picker's line lists every set part, street first, joined with ", ";
   * with no part set it reads "Address not specified".
   */
  lemma FormatAddressSpec(p: Place)
    ensures FormatAddress(p) != ""
    ensures p == NoPlace ==> FormatAddress(p) == "Address not specified"
    ensures p != NoPlace ==>
      FormatAddress(p) == Join(Present([p.address, p.city, p.state, p.zipCode, p.country]), ", ")
    ensures p.address != "" ==> p.address <= FormatAddress(p)
    ensures p.address == "" && p.city != "" ==> p.city <= FormatAddress(p)
  {
    var all := [p.address, p.city, p.state, p.zipCode, p.country];
    var parts := Present(all);
    JoinPresentEmptyIff(parts, ", ");
    if p != NoPlace {
      var x := if p.address != "" then p.address else if p.city != "" then p.city
        else if p.state != "" then p.state else if p.zipCode != "" then p.zipCode else p.country;
      assert x in all && x != "";
      assert x in parts;
    }
    if p.address != "" {
      assert parts == [p.address] + Present(all[1..]);
    } else if p.city != "" {
      assert parts == Present(all[1..]);
      assert all[1..][1..] == all[2..];
      assert parts == [p.city] + Present(all[2..]);
    }
  }
}
