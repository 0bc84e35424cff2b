/**
 * The shared map state (src/store/mapStore.ts): a single record whose actions each
 * overwrite some of its fields.
 */
module MapStore {
  import opened Wrappers
  import opened Geo

  /** The business the map is centred on. */
  datatype BusinessLocation = BusinessLocation(name: string, coordinates: Coord, address: Option<string>)

  /** The Mapbox map object, known here only by identity. */
  datatype MapHandle = MapHandle(id: nat)

  /** The store's fields as one value, so that each action can say which one it changes. */
  datatype MapView = MapView(
    businessLocation: Option<BusinessLocation>,
    personPins: seq<Pin>,
    selectedPin: Option<Pin>,
    mapInstance: Option<MapHandle>,
    isLoading: bool,
    error: Option<string>)

  class MapState {
    var businessLocation: Option<BusinessLocation>
    var personPins: seq<Pin>
    var selectedPin: Option<Pin>
    var mapInstance: Option<MapHandle>
    var isLoading: bool
    var error: Option<string>

    function View(): MapView
      reads this
    {
      MapView(businessLocation, personPins, selectedPin, mapInstance, isLoading, error)
    }

    /** The initial state: nothing located, no pins, no selection, no map, idle, no error. */
    constructor()
      ensures View() == MapView(None, [], None, None, false, None)
    {
      businessLocation := None;
      personPins := [];
      selectedPin := None;
      mapInstance := None;
      isLoading := false;
      error := None;
    }

    method SetBusinessLocation(location: Option<BusinessLocation>)
      modifies this
      ensures View() == old(View()).(businessLocation := location)
    {
      businessLocation := location;
    }

    /** Replaces the whole pin list. */
    method SetPersonPins(pins: seq<Pin>)
      modifies this
      ensures View() == old(View()).(personPins := pins)
    {
      personPins := pins;
    }

    /** Appends one pin after the existing ones. */
    method AddPersonPin(pin: Pin)
      modifies this
      ensures |personPins| == |old(personPins)| + 1
      ensures personPins[..|old(personPins)|] == old(personPins) && personPins[|old(personPins)|] == pin
      ensures View() == old(View()).(personPins := old(personPins) + [pin])
    {
      personPins := personPins + [pin];
    }

    method SetSelectedPin(pin: Option<Pin>)
      modifies this
      ensures View() == old(View()).(selectedPin := pin)
    {
      selectedPin := pin;
    }

    method SetMapInstance(instance: Option<MapHandle>)
      modifies this
      ensures View() == old(View()).(mapInstance := instance)
    {
      mapInstance := instance;
    }

    method SetLoading(loading: bool)
      modifies this
      ensures View() == old(View()).(isLoading := loading)
    {
      isLoading := loading;
    }

    method SetError(error: Option<string>)
      modifies this
      ensures View() == old(View()).(error := error)
    {
      this.error := error;
    }

    /** Drops every pin and the selection; the business, the map, loading and error stay. */
    method ClearPins()
      modifies this
      ensures View() == old(View()).(personPins := [], selectedPin := None)
    {
      personPins := [];
      selectedPin := None;
    }
  }
}
