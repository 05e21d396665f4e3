/** The `firearms_auctions` row and the JavaScript value conventions that the
    services apply to it (`shared/firearms-schema.ts`). Timestamps are
    milliseconds since the epoch. */
module FirearmsSchema {

  datatype Option<T> = None | Some(value: T)

  /** A value, or the message of the error thrown instead. */
  datatype Result<T> = Ok(value: T) | Err(error: string)

  /** The `status` column: listing lifecycle. */
  datatype ListingStatus = Active | Sold | Cancelled

  /** The `enrichmentStatus` column, a nullable text: the four values the
      services write, or `Unknown` for null or any other text. */
  datatype EnrichmentStatus = Pending | Processing | Completed | Failed | Unknown

  /** One auction listing. Nullable columns are `Option`s; the columns the
      core never reads or writes (coordinates, images, reserve, NFA
      registration, market-data JSON, enrichment version) are not part of the
      model. */
  datatype Listing = Listing(
    id: nat,
    title: string,
    url: string,
    sourceWebsite: string,
    description: Option<string>,
    // identification
    manufacturer: Option<string>,
    model: Option<string>,
    caliber: Option<string>,
    serialNumber: Option<string>,
    yearManufactured: Option<int>,
    // condition
    condition: Option<string>,
    boreCondition: Option<string>,
    finishPercentage: Option<int>,
    originalParts: Option<bool>,
    mechanicalFunction: Option<string>,
    // categories
    category: Option<string>,
    subCategory: Option<string>,
    // auction details
    auctionHouse: Option<string>,
    auctionDate: Option<int>,
    lotNumber: Option<string>,
    startingBid: Option<real>,
    currentBid: Option<real>,
    estimateLow: Option<real>,
    estimateHigh: Option<real>,
    // location
    city: Option<string>,
    state: Option<string>,
    // legal
    transferType: Option<string>,
    nfaItem: Option<bool>,
    // value intelligence
    provenance: Option<string>,
    rarity: Option<string>,
    desirability: Option<int>,
    investmentGrade: Option<bool>,
    // estate sale
    isEstateSale: Option<bool>,
    estateSize: Option<string>,
    collectionName: Option<string>,
    // extras
    includedAccessories: Option<seq<string>>,
    originalBox: Option<bool>,
    paperwork: Option<bool>,
    // AI enrichment
    enrichmentStatus: EnrichmentStatus,
    enrichedAt: Option<int>,
    // metadata
    status: ListingStatus,
    scrapedAt: int,
    updatedAt: int
  )

  /** JavaScript truthiness of a possibly-null value whose type has exactly one
      falsy value `falsy`: "" for text, 0 for numbers, false for booleans. */
  predicate Truthy<T(==)>(a: Option<T>, falsy: T) {
    a.Some? && a.value != falsy
  }

  /** JavaScript `a || b`. */
  function Or<T(==)>(a: Option<T>, falsy: T, b: Option<T>): Option<T> {
    if Truthy(a, falsy) then a else b
  }
}
