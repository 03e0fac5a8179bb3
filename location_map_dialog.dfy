/**
 * The location picker of src/components/sensors/location-map-dialog.tsx: the
 * dialog's `open`, `tempPosition` and `mapCenter` state, the marker inside the
 * map, and how a click, the save button, closing and new coordinate props
 * change them. The Leaflet map, its tiles and geolocation are not modelled.
 */
module LocationMapDialog {
  import opened Js

  datatype Position = Position(lat: real, lng: real)

  /** The map's centre before anything is known: Mexico City. */
  const DefaultCenter := Position(19.4326, -99.1332)

  /**
   * The position the props describe, under `latitude && longitude`: both
   * present and neither 0.
   */
  function PropsPosition(latitude: Option<real>, longitude: Option<real>): (p: Option<Position>)
    ensures p.Some? <==> TruthyNumber(latitude) && TruthyNumber(longitude)
    ensures p.Some? ==> p.value.lat == latitude.value && p.value.lng == longitude.value
    ensures p.Some? ==> p.value.lat != 0.0 && p.value.lng != 0.0
  {
    if TruthyNumber(latitude) && TruthyNumber(longitude) then Some(Position(latitude.value, longitude.value))
    else None
  }

  class Picker {
    /** The `latitude` and `longitude` props. */
    var latitude: Option<real>
    var longitude: Option<real>
    /** The `showSaveButton` prop (default `false`). */
    const showSaveButton: bool
    var open: bool
    var tempPosition: Option<Position>
    var mapCenter: Position
    /** The marker's own `position` state inside the map. */
    var markerPosition: Option<Position>
    /** The points passed to `onLocationSelect`, oldest first. */
    var reported: seq<Position>
    /** Whether the prop effect has run once, on mount. */
    ghost var mounted: bool

    /** The marker always shows the dialog's `tempPosition`. */
    predicate Valid()
      reads this
    {
      markerPosition == tempPosition
    }

    /** The first render, before the prop effect has run. */
    constructor (latitude: Option<real>, longitude: Option<real>, showSaveButton: bool)
      ensures Valid()
      ensures this.latitude == latitude && this.longitude == longitude && this.showSaveButton == showSaveButton
      ensures !open && tempPosition.None? && mapCenter == DefaultCenter
      ensures markerPosition.None? && reported == [] && !mounted
    {
      this.latitude, this.longitude, this.showSaveButton := latitude, longitude, showSaveButton;
      open, tempPosition, mapCenter := false, None, DefaultCenter;
      markerPosition, reported := None, [];
      mounted := false;
    }

    /**
     * The effect on `[latitude, longitude]`: it runs on mount and whenever a
     * coordinate prop changes, copying the props into `tempPosition` and
     * `mapCenter` when both are truthy and otherwise leaving the picker as it
     * is. A re-render with the same props does not run it.
     */
    method SyncProps(newLatitude: Option<real>, newLongitude: Option<real>)
      requires Valid()
      requires !mounted || newLatitude != latitude || newLongitude != longitude
      modifies this
      ensures Valid() && mounted
      ensures latitude == newLatitude && longitude == newLongitude
      ensures PropsPosition(newLatitude, newLongitude).Some? ==>
        tempPosition == PropsPosition(newLatitude, newLongitude)
        && mapCenter == PropsPosition(newLatitude, newLongitude).value
      ensures PropsPosition(newLatitude, newLongitude).None? ==>
        tempPosition == old(tempPosition) && mapCenter == old(mapCenter)
      ensures open == old(open) && reported == old(reported)
    {
      latitude, longitude := newLatitude, newLongitude;
      mounted := true;
      if TruthyNumber(latitude) && TruthyNumber(longitude) {
        var position := Position(latitude.value, longitude.value);
        tempPosition := Some(position);
        mapCenter := position;
        markerPosition := tempPosition;
      }
    }

    /**
     * A click on the map: the marker moves there, then `handleMapClick` makes
     * it the temporary position and the centre; without a save button it also
     * reports the point and closes the dialog.
     */
    method HandleMapClick(lat: real, lng: real)
      requires Valid()
      modifies this
      ensures Valid()
      ensures tempPosition == Some(Position(lat, lng)) && mapCenter == Position(lat, lng)
      ensures !showSaveButton ==> reported == old(reported) + [Position(lat, lng)] && !open
      ensures showSaveButton ==> reported == old(reported) && open == old(open)
      ensures latitude == old(latitude) && longitude == old(longitude) && mounted == old(mounted)
    {
      markerPosition := Some(Position(lat, lng));
      var newPosition := Position(lat, lng);
      tempPosition := Some(newPosition);
      mapCenter := newPosition;
      if !showSaveButton {
        reported := reported + [newPosition];
        open := false;
      }
      // The marker's effect follows the new `initialPosition`.
      markerPosition := tempPosition;
    }

    /** The save button: reports the temporary position and closes, if there is one. */
    method HandleSave()
      requires Valid()
      modifies this
      ensures Valid()
      ensures tempPosition.Some? ==> reported == old(reported) + [tempPosition.value] && !open
      ensures tempPosition.None? ==> reported == old(reported) && open == old(open)
      ensures tempPosition == old(tempPosition) && mapCenter == old(mapCenter) && markerPosition == old(markerPosition)
      ensures latitude == old(latitude) && longitude == old(longitude) && mounted == old(mounted)
    {
      if tempPosition.Some? {
        reported := reported + [tempPosition.value];
        open := false;
      }
    }

    /**
     * `onOpenChange`: closing puts `tempPosition` and `mapCenter` back to the
     * props when both are truthy; otherwise an unsaved click survives the
     * close. Either way `open` becomes `newOpen`.
     */
    method HandleOpenChange(newOpen: bool)
      requires Valid()
      modifies this
      ensures Valid()
      ensures open == newOpen
      ensures !newOpen && PropsPosition(latitude, longitude).Some? ==>
        tempPosition == PropsPosition(latitude, longitude)
        && mapCenter == PropsPosition(latitude, longitude).value
      ensures newOpen || PropsPosition(latitude, longitude).None? ==>
        tempPosition == old(tempPosition) && mapCenter == old(mapCenter)
      ensures reported == old(reported)
      ensures latitude == old(latitude) && longitude == old(longitude) && mounted == old(mounted)
    {
      if !newOpen {
        if TruthyNumber(latitude) && TruthyNumber(longitude) {
          tempPosition := Some(Position(latitude.value, longitude.value));
          mapCenter := Position(latitude.value, longitude.value);
          markerPosition := tempPosition;
        }
      }
      open := newOpen;
    }

    /** The map shows a marker exactly when there is a temporary position, at that position. */
    function Marker(): (m: Option<Position>)
      requires Valid()
      reads this
      ensures m == tempPosition
    {
      markerPosition
    }
  }

  /**
   * With a save button, a click followed by cancelling puts the picker back
   * on the props' position when they hold one, and nothing is reported.
   */
  method ClickThenCancel(picker: Picker, lat: real, lng: real)
    requires picker.Valid() && picker.showSaveButton
    requires PropsPosition(picker.latitude, picker.longitude).Some?
    modifies picker
    ensures picker.Valid()
    ensures picker.latitude == old(picker.latitude) && picker.longitude == old(picker.longitude)
    ensures picker.tempPosition == PropsPosition(picker.latitude, picker.longitude)
    ensures picker.mapCenter == PropsPosition(picker.latitude, picker.longitude).value
    ensures picker.reported == old(picker.reported) && !picker.open
  {
    picker.HandleMapClick(lat, lng);
    picker.HandleOpenChange(false);
  }

  /** A click followed by the save button reports the clicked point, once. */
  method ClickThenSave(picker: Picker, lat: real, lng: real)
    requires picker.Valid() && picker.showSaveButton
    modifies picker
    ensures picker.Valid()
    ensures picker.reported == old(picker.reported) + [Position(lat, lng)] && !picker.open
    ensures picker.tempPosition == Some(Position(lat, lng))
  {
    picker.HandleMapClick(lat, lng);
    picker.HandleSave();
  }
}
