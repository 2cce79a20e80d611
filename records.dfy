/** The input records the transformers read. Money is in integer cents.
    A nullable column that the market, pre-sale, action-log and manager rows copy
    unchanged is an `Option`, shown with `Nullable`. Every other nullable text column
    is a `string` with "" for null, and every other nullable number an `int` with 0
    for null. Where the engine reads such a column through a JavaScript `||`
    fallback, null and ""/0 behave alike. Where it copies one unchanged (the
    submission's id, `created_at`, `market_id`, `item_type` and `quantity` in the
    report rows; the names in the single-wave export), a null is read here as ""/0. */
module Records {
  import opened Common

  /** The `item_type` column of a wave submission. `OtherType` stands for any value
      other than the five known names; it is never built with one of those names. */
  datatype ItemType = Display | Kartonware | Einzelprodukt | Palette | Schuette | OtherType(name: string)

  function TypeName(t: ItemType): string
  {
    match t
    case Display => "display"
    case Kartonware => "kartonware"
    case Einzelprodukt => "einzelprodukt"
    case Palette => "palette"
    case Schuette => "schuette"
    case OtherType(name) => name
  }

  predicate IsContainerProduct(t: ItemType)
  {
    t == Palette || t == Schuette
  }

  /** A row of `wellen_submissions`. `minute` is the submission time truncated to the
      minute (the `toISOString().slice(0, 16)` of `created_at`), taken as given. */
  datatype Submission = Submission(
    id: Id,
    createdAt: string,
    minute: string,
    welleId: Id,
    glId: Id,
    marketId: Id,
    itemType: ItemType,
    itemId: Id,
    quantity: int,
    valuePerUnit: int,
    photoUrl: string,
    deliveryPhotoUrl: string)

  /** A wave (`wellen`), an area manager (`gebietsleiter`) and a market as the
      submission report looks them up. */
  datatype Welle = Welle(id: Id, name: string)
  datatype Gebietsleiter = Gebietsleiter(id: Id, name: string, email: string)
  datatype Market = Market(id: Id, name: string, chain: string, city: string, address: string, postalCode: string)

  /** A row of `wellen_displays`, `wellen_kartonware` or `wellen_einzelprodukte`. */
  datatype PricedItem = PricedItem(id: Id, name: string, itemValue: int)

  /** A row of `wellen_paletten` or `wellen_schuetten`: a physical container. */
  datatype Container = Container(id: Id, name: string)

  /** A row of `wellen_paletten_products` or `wellen_schuetten_products`. */
  datatype ContainerProduct = ContainerProduct(id: Id, name: string, containerId: Id, valuePerVe: int)

  /** The catalog rows of the items a wave offers: the standalone items, the container
      products and the containers. */
  datatype Catalogs = Catalogs(
    displays: seq<PricedItem>,
    kartonware: seq<PricedItem>,
    einzelprodukte: seq<PricedItem>,
    paletteProducts: seq<ContainerProduct>,
    schuetteProducts: seq<ContainerProduct>,
    paletten: seq<Container>,
    schuetten: seq<Container>)
}
