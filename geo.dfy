/** The geolocated pin shared by the clustering utility, the pin extraction and the map store. */
module Geo {
  import opened JsonValue

  /** A `[longitude, latitude]` pair in decimal degrees. */
  datatype Coord = Coord(lng: real, lat: real)

  /** A person pin: an id, its coordinates and the raw record it came from. */
  datatype Pin = Pin(id: string, coordinates: Coord, data: Json)
}
