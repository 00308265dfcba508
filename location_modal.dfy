/**
 * The location picker: a modal that lets the shopper pick a saved address,
 * a map point or the current position, reports the choice to its parent
 * as an event, and resets itself on closing.
 */
module LocationModal {
  import opened Wrappers
  import opened Addresses

  datatype Source = Current | Saved | MapPick

  /** What the modal tells its parent, in order. */
  datatype ModalEvent = LocationSelected(address: Place, source: Source) | AddNewAddress | Close

  /** A point picked on the map. */
  datatype MapPoint = MapPoint(lat: real, lng: real)

  class LocationModal {
    var selectedAddressIndex: Option<int>
    var gettingLocation: bool
    var showMap: bool
    var mapLocation: Option<MapPoint>
    var hasMap: bool
    var hasMarker: bool
    var error: string
    var events: seq<ModalEvent>

    /** The state the modal opens in and returns to on every close. */
    predicate IsReset()
      reads this
    {
      selectedAddressIndex.None? && !gettingLocation && !showMap && mapLocation.None?
      && !hasMap && !hasMarker && error == ""
    }

    constructor ()
      ensures IsReset() && events == []
    {
      selectedAddressIndex := None;
      gettingLocation := false;
      showMap := false;
      mapLocation := None;
      hasMap := false;
      hasMarker := false;
      error := "";
      events := [];
    }

    /** Forgets the choice in progress and any map state; emits nothing. */
    method ResetModal()
      modifies this
      ensures IsReset() && events == old(events)
    {
      selectedAddressIndex := None;
      gettingLocation := false;
      showMap := false;
      mapLocation := None;
      if hasMap {
        hasMap := false;
      }
      if hasMarker {
        hasMarker := false;
      }
      error := "";
    }

    /** The watcher on the show prop: hiding the modal resets it. */
    method ShowChanged(show: bool)
      modifies this
      ensures !show ==> IsReset() && events == old(events)
      ensures show ==> unchanged(this)
    {
      if !show {
        ResetModal();
      }
    }

    method CloseModal()
      modifies this
      ensures IsReset() && events == old(events) + [Close]
    {
      ResetModal();
      events := events + [Close];
    }

    /** Reports the choice once, then closes. */
    method SelectLocation(address: Place, source: Source)
      modifies this
      ensures IsReset()
      ensures events == old(events) + [LocationSelected(address, source), Close]
    {
      gettingLocation := false;
      events := events + [LocationSelected(address, source)];
      CloseModal();
    }

    /**
     * Picks a saved address. The index it records is cleared again by the
     * close that follows, so afterwards no index is selected.
     */
    method SelectAddress(address: Place, index: int)
      modifies this
      ensures IsReset() && selectedAddressIndex.None?
      ensures events == old(events) + [LocationSelected(address, Saved), Close]
    {
      selectedAddressIndex := Some(index);
      SelectLocation(address, Saved);
    }

    /** Shows the map and clears any earlier error; the map itself is not modelled. */
    method OpenMapSelection()
      modifies this`showMap, this`error
      ensures showMap && error == ""
    {
      showMap := true;
      error := "";
    }

    /** Leaves the map without choosing; nothing is emitted. */
    method CancelMapSelection()
      modifies this`showMap, this`mapLocation, this`hasMap, this`hasMarker
      ensures !showMap && mapLocation.None? && !hasMap && !hasMarker
    {
      showMap := false;
      mapLocation := None;
      if hasMap {
        hasMap := false;
      }
      if hasMarker {
        hasMarker := false;
      }
    }

    /**
     * Confirms the map point. Without a point it only sets an error. With
     * one, the reverse-geocoded place (an all-empty place when the lookup
     * fails) is reported with source MapPick.
     */
    method ConfirmMapLocation(geocoded: Option<Place>)
      modifies this
      ensures old(mapLocation).None? ==>
        error == "Please select a location on the map" && events == old(events)
        && selectedAddressIndex == old(selectedAddressIndex) && showMap == old(showMap)
        && gettingLocation == old(gettingLocation) && mapLocation == old(mapLocation)
        && hasMap == old(hasMap) && hasMarker == old(hasMarker)
      ensures old(mapLocation).Some? ==>
        IsReset() && events == old(events) + [LocationSelected(geocoded.GetOr(NoPlace), MapPick), Close]
    {
      if mapLocation.None? {
        error := "Please select a location on the map";
        return;
      }
      var address := geocoded.GetOr(NoPlace);
      SelectLocation(address, MapPick);
    }

    method AddNew()
      modifies this
      ensures IsReset() && events == old(events) + [AddNewAddress, Close]
    {
      events := events + [AddNewAddress];
      CloseModal();
    }
  }
}
