/** The client-side records: a location, an inventory item and a shop. */
module Types {
  import opened Wrappers

  /** A position in degrees. Floating point is modelled by `real`. */
  datatype Location = Location(latitude: real, longitude: real)

  /** An inventory entry of a shop. */
  datatype Item = Item(id: string, name: string, quantity: int)

  /**
   * A shop as the client holds it. `posterUrl`, `createdBy` and `isOpen`
   * are optional in the client type; `None` stands for `undefined`.
   */
  datatype Shop = Shop(
    id: string,
    name: string,
    description: string,
    address: string,
    location: Location,
    posterUrl: Option<string>,
    items: seq<Item>,
    owner: string,
    phone: string,
    email: string,
    openingHours: string,
    category: string,
    createdBy: Option<string>,
    isOpen: Option<bool>)

  /** The name and quantity of each item, in order: what survives every conversion. */
  function ItemContents(items: seq<Item>): (r: seq<(string, int)>)
    ensures |r| == |items|
    ensures forall i :: 0 <= i < |items| ==> r[i] == (items[i].name, items[i].quantity)
  {
    seq(|items|, i requires 0 <= i < |items| => (items[i].name, items[i].quantity))
  }
}
