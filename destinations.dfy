/** The records the application shows and creates. */
module Destinations {

  /** A map position with its display name. The coordinates are JavaScript numbers in the
      application; here they are exact reals and nothing is computed with them. */
  datatype Location = Location(lat: real, lng: real, name: string)

  /** A destination of the built-in gallery: an id, the texts that are searched, image
      references and a location. */
  datatype Destination = Destination(
    id: nat,
    title: string,
    description: string,
    images: seq<string>,
    hashtags: seq<string>,
    location: Location)

  /** What the add-destination form hands over: a record without an id (the document store
      assigns ids). */
  datatype Draft = Draft(
    title: string,
    description: string,
    hashtags: seq<string>,
    images: seq<string>,
    location: Location)
}
