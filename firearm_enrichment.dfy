/** AI enrichment of one listing (`server/services/firearmEnrichment.ts`): the
    row moves pending → processing → completed, or to failed when anything
    throws; the parsed AI document is mapped onto the row with JavaScript `||`
    defaulting. The chat-completion call is an oracle (`AiReply`). */
module FirearmEnrichment {
  import opened FirearmsSchema
  import opened Text
  import opened AuctionStore
  import opened EnrichmentQueue

  /** The parsed JSON document the model returns. A missing section or key is
      `None`; `estimateLow`/`estimateHigh` are the two ends of
      `auction.estimateRange`. */
  datatype AiDocument = AiDocument(
    manufacturer: Option<string>,
    model: Option<string>,
    caliber: Option<string>,
    serialNumber: Option<string>,
    yearManufactured: Option<int>,
    category: Option<string>,
    subCategory: Option<string>,
    grade: Option<string>,
    boreCondition: Option<string>,
    finishPercentage: Option<int>,
    originalParts: Option<bool>,
    mechanicalFunction: Option<string>,
    provenance: Option<string>,
    rarity: Option<string>,
    desirability: Option<int>,
    investmentGrade: Option<bool>,
    keyFeatures: Option<seq<string>>,
    transferType: Option<string>,
    nfaItem: Option<bool>,
    restrictions: Option<seq<string>>,
    auctionHouse: Option<string>,
    lotNumber: Option<string>,
    estimateLow: Option<real>,
    estimateHigh: Option<real>,
    startingBid: Option<real>,
    currentBid: Option<real>,
    includedAccessories: Option<seq<string>>,
    originalBox: Option<bool>,
    paperwork: Option<bool>,
    specialFeatures: Option<seq<string>>,
    isEstateSale: Option<bool>,
    collectionSize: Option<string>,
    collectionName: Option<string>,
    soldStatus: Option<string>)

  /** What the chat completion gives: a parsed document, or the message of the
      error thrown by the call or by `JSON.parse`. */
  datatype AiReply = Reply(doc: AiDocument) | CallFailed(message: string)

  /** `FirearmEnrichmentResult`. */
  datatype EnrichmentResult = EnrichmentResult(
    manufacturer: Option<string>,
    model: Option<string>,
    caliber: Option<string>,
    serialNumber: Option<string>,
    yearManufactured: Option<int>,
    category: Option<string>,
    subCategory: Option<string>,
    condition: Option<string>,
    boreCondition: Option<string>,
    finishPercentage: Option<int>,
    originalParts: Option<bool>,
    mechanicalFunction: Option<string>,
    provenance: Option<string>,
    rarity: Option<string>,
    desirability: Option<int>,
    investmentGrade: bool,
    keyFeatures: seq<string>,
    transferType: Option<string>,
    nfaItem: bool,
    restrictions: seq<string>,
    auctionHouse: Option<string>,
    lotNumber: Option<string>,
    estimateLow: Option<real>,
    estimateHigh: Option<real>,
    startingBid: Option<real>,
    currentBid: Option<real>,
    includedAccessories: seq<string>,
    originalBox: Option<bool>,
    paperwork: Option<bool>,
    specialFeatures: seq<string>,
    isEstateSale: bool,
    collectionSize: Option<string>,
    collectionName: Option<string>,
    soldStatus: Option<string>)

  /** `x || []` on a possibly missing array: arrays are truthy even when empty. */
  function OrEmpty(a: Option<seq<string>>): seq<string> {
    if a.Some? then a.value else []
  }

  /** The result built from the AI document `d` for listing `l`: every value
      is kept when truthy; otherwise text, numbers and the part/box/paperwork
      flags become null, the NFA, estate and investment flags become false,
      lists become empty, and the auction details fall back to the listing's. */
  function MapResult(d: AiDocument, l: Listing): EnrichmentResult {
    EnrichmentResult(
      manufacturer := Or(d.manufacturer, "", None),
      model := Or(d.model, "", None),
      caliber := Or(d.caliber, "", None),
      serialNumber := Or(d.serialNumber, "", None),
      yearManufactured := Or(d.yearManufactured, 0, None),
      category := Or(d.category, "", None),
      subCategory := Or(d.subCategory, "", None),
      condition := Or(d.grade, "", None),
      boreCondition := Or(d.boreCondition, "", None),
      finishPercentage := Or(d.finishPercentage, 0, None),
      originalParts := Or(d.originalParts, false, None),
      mechanicalFunction := Or(d.mechanicalFunction, "", None),
      provenance := Or(d.provenance, "", None),
      rarity := Or(d.rarity, "", None),
      desirability := Or(d.desirability, 0, None),
      investmentGrade := Truthy(d.investmentGrade, false),
      keyFeatures := OrEmpty(d.keyFeatures),
      transferType := Or(d.transferType, "", None),
      nfaItem := Truthy(d.nfaItem, false),
      restrictions := OrEmpty(d.restrictions),
      auctionHouse := Or(d.auctionHouse, "", l.auctionHouse),
      lotNumber := Or(d.lotNumber, "", l.lotNumber),
      estimateLow := Or(d.estimateLow, 0.0, l.estimateLow),
      estimateHigh := Or(d.estimateHigh, 0.0, l.estimateHigh),
      startingBid := Or(d.startingBid, 0.0, l.startingBid),
      currentBid := Or(d.currentBid, 0.0, l.currentBid),
      includedAccessories := OrEmpty(d.includedAccessories),
      originalBox := Or(d.originalBox, false, None),
      paperwork := Or(d.paperwork, false, None),
      specialFeatures := OrEmpty(d.specialFeatures),
      isEstateSale := Truthy(d.isEstateSale, false),
      collectionSize := Or(d.collectionSize, "", None),
      collectionName := Or(d.collectionName, "", None),
      soldStatus := Or(d.soldStatus, "", None))
  }

  /** `x || null` never stores a falsy value: a false part/box/paperwork flag
      and a zero year, finish or desirability become null, and a kept value is
      the document's own. */
  lemma NullDefaults(d: AiDocument, l: Listing)
    ensures var r := MapResult(d, l);
      && (r.originalParts == None <==> !Truthy(d.originalParts, false))
      && (r.originalParts != None ==> r.originalParts == Some(true))
      && (r.originalBox == None <==> !Truthy(d.originalBox, false))
      && (r.paperwork == None <==> !Truthy(d.paperwork, false))
      && (r.yearManufactured == None <==> !Truthy(d.yearManufactured, 0))
      && (r.yearManufactured != None ==> r.yearManufactured == d.yearManufactured && r.yearManufactured.value != 0)
      && (r.finishPercentage == None <==> !Truthy(d.finishPercentage, 0))
      && (r.desirability == None <==> !Truthy(d.desirability, 0))
      && (r.manufacturer == None <==> !Truthy(d.manufacturer, ""))
      && (r.manufacturer != None ==> r.manufacturer == d.manufacturer && r.manufacturer.value != "")
      && (r.soldStatus == None <==> !Truthy(d.soldStatus, ""))
  {
    if Truthy(d.originalParts, false) {
      assert d.originalParts.value;
    }
  }

  /** The flags that default to false are true exactly when the document says
      true; a missing list is empty and a present one is kept, even empty. */
  lemma FalseAndEmptyDefaults(d: AiDocument, l: Listing)
    ensures var r := MapResult(d, l);
      && (r.nfaItem <==> d.nfaItem == Some(true))
      && (r.isEstateSale <==> d.isEstateSale == Some(true))
      && (r.investmentGrade <==> d.investmentGrade == Some(true))
      && (d.keyFeatures.None? ==> r.keyFeatures == [])
      && (d.keyFeatures.Some? ==> r.keyFeatures == d.keyFeatures.value)
      && (d.restrictions.None? ==> r.restrictions == [])
      && (d.includedAccessories.None? ==> r.includedAccessories == [])
      && (d.specialFeatures.None? ==> r.specialFeatures == [])
  {
    FlagDefault(d.nfaItem);
    FlagDefault(d.isEstateSale);
    FlagDefault(d.investmentGrade);
  }

  /** `flag || false` is true exactly for a present `true`. */
  lemma FlagDefault(a: Option<bool>)
    ensures Truthy(a, false) <==> a == Some(true)
  {
    if a.Some? {
      if a.value {
        assert a == Some(true);
      }
    }
  }

  /** The auction details come from the document when truthy and are the
      listing's own otherwise. */
  lemma AuctionFallbacks(d: AiDocument, l: Listing)
    ensures var r := MapResult(d, l);
      && r.auctionHouse == (if Truthy(d.auctionHouse, "") then d.auctionHouse else l.auctionHouse)
      && r.lotNumber == (if Truthy(d.lotNumber, "") then d.lotNumber else l.lotNumber)
      && r.estimateLow == (if Truthy(d.estimateLow, 0.0) then d.estimateLow else l.estimateLow)
      && r.estimateHigh == (if Truthy(d.estimateHigh, 0.0) then d.estimateHigh else l.estimateHigh)
      && r.startingBid == (if Truthy(d.startingBid, 0.0) then d.startingBid else l.startingBid)
      && r.currentBid == (if Truthy(d.currentBid, 0.0) then d.currentBid else l.currentBid)
      && (l.currentBid.Some? ==> r.currentBid.Some?)
  {
  }

  /** The listing status after enrichment: sold or active only when the model
      says exactly that, otherwise the status before. */
  function StatusAfter(soldStatus: Option<string>, prior: ListingStatus): (s: ListingStatus)
    ensures s == Sold <==> soldStatus == Some("sold") || (prior == Sold && soldStatus != Some("active"))
    ensures s == Active <==> soldStatus == Some("active") || (prior == Active && soldStatus != Some("sold"))
    ensures soldStatus != Some("sold") && soldStatus != Some("active") ==> s == prior
  {
    if soldStatus == Some("sold") then Sold
    else if soldStatus == Some("active") then Active
    else prior
  }

  /** The row after a successful enrichment: the mapped fields are written,
      an empty accessory list is stored as null, the status follows
      `StatusAfter`, and the row is completed at `now`. */
  function EnrichedRow(l: Listing, r: EnrichmentResult, now: int): Listing {
    l.(manufacturer := r.manufacturer, model := r.model, caliber := r.caliber,
       serialNumber := r.serialNumber, yearManufactured := r.yearManufactured,
       category := r.category, subCategory := r.subCategory,
       condition := r.condition, boreCondition := r.boreCondition,
       finishPercentage := r.finishPercentage, originalParts := r.originalParts,
       mechanicalFunction := r.mechanicalFunction,
       provenance := r.provenance, rarity := r.rarity, desirability := r.desirability,
       investmentGrade := Some(r.investmentGrade),
       transferType := r.transferType, nfaItem := Some(r.nfaItem),
       auctionHouse := r.auctionHouse, lotNumber := r.lotNumber,
       estimateLow := r.estimateLow, estimateHigh := r.estimateHigh,
       startingBid := r.startingBid, currentBid := r.currentBid,
       includedAccessories := if |r.includedAccessories| > 0 then Some(r.includedAccessories) else None,
       originalBox := r.originalBox, paperwork := r.paperwork,
       isEstateSale := Some(r.isEstateSale),
       estateSize := r.collectionSize, collectionName := r.collectionName,
       status := StatusAfter(r.soldStatus, l.status),
       enrichmentStatus := Completed, enrichedAt := Some(now), updatedAt := now)
  }

  /** Enrichment completes the row, keeps what identifies the listing and
      where it is, and never stores an empty accessory list. */
  lemma EnrichedProperties(l: Listing, r: EnrichmentResult, now: int)
    ensures var e := EnrichedRow(l, r, now);
      && e.enrichmentStatus == Completed && e.enrichedAt == Some(now) && e.updatedAt == now
      && e.id == l.id && e.title == l.title && e.url == l.url && e.sourceWebsite == l.sourceWebsite
      && e.description == l.description && e.auctionDate == l.auctionDate
      && e.city == l.city && e.state == l.state && e.scrapedAt == l.scrapedAt
      && (e.includedAccessories.Some? ==> |e.includedAccessories.value| > 0)
      && (e.includedAccessories.None? <==> r.includedAccessories == [])
      && e.nfaItem.Some? && e.isEstateSale.Some? && e.investmentGrade.Some?
  {
  }

  /** The effect of enriching row `id` when the AI call gives `reply`: a
      missing row fails with "not found" and changes nothing; a failing call
      leaves the row failed (after processing) and passes its error on; a
      successful call completes the row with the mapped result and returns it. */
  ghost predicate EnrichEffect(id: nat, reply: AiReply, now: int, rows: seq<Listing>, rows': seq<Listing>,
                               r: Result<EnrichmentResult>)
  {
    if !(1 <= id <= |rows|) then
      r == Err(NotFound(id)) && rows' == rows
    else if reply.CallFailed? then
      r == Err(reply.message) && rows' == rows[id - 1 := rows[id - 1].(enrichmentStatus := Failed, updatedAt := now)]
    else
      r == Ok(MapResult(reply.doc, rows[id - 1])) && rows' == rows[id - 1 := EnrichedRow(rows[id - 1], r.value, now)]
  }

  /** The row of a listing after one enrichment whose AI call gives `reply`:
      failed at `now`, or completed with the result mapped from that row. */
  function EnrichedAt(l: Listing, reply: AiReply, now: int): Listing {
    if reply.CallFailed? then l.(enrichmentStatus := Failed, updatedAt := now)
    else EnrichedRow(l, MapResult(reply.doc, l), now)
  }

  /** The table after enriching row `id`: unchanged when there is no such row. */
  function EnrichRows(id: nat, reply: AiReply, now: int, rows: seq<Listing>): (rows': seq<Listing>)
    ensures |rows'| == |rows|
  {
    if 1 <= id <= |rows| then rows[id - 1 := EnrichedAt(rows[id - 1], reply, now)] else rows
  }

  /** The table after enriching `ids` in order, `step(i, l)` being the row
      the enrichment at position `i` makes of row `l`; an id naming no row
      changes nothing. */
  function FoldRows(rows: seq<Listing>, ids: seq<nat>, step: (nat, Listing) -> Listing): (rows': seq<Listing>)
    ensures |rows'| == |rows|
  {
    if ids == [] then rows
    else
      var n := |ids| - 1;
      var prev := FoldRows(rows, ids[..n], step);
      if 1 <= ids[n] <= |prev| then prev[ids[n] - 1 := step(n, prev[ids[n] - 1])] else prev
  }

  /** The enrichment at position `i` of a batch whose AI replies are `replies`. */
  function EnrichStep(replies: nat -> AiReply, now: int): (nat, Listing) -> Listing {
    (i: nat, l: Listing) => EnrichedAt(l, replies(i), now)
  }

  /** `step` enriches as `EnrichStep(replies, now)` does. */
  ghost predicate StepIs(step: (nat, Listing) -> Listing, replies: nat -> AiReply, now: int) {
    forall i: nat, l: Listing {:trigger EnrichedAt(l, replies(i), now)} :: step(i, l) == EnrichedAt(l, replies(i), now)
  }

  lemma StepIsAt(step: (nat, Listing) -> Listing, replies: nat -> AiReply, now: int, i: nat, l: Listing)
    requires StepIs(step, replies, now)
    ensures step(i, l) == EnrichedAt(l, replies(i), now)
  {
  }

  /** The table after enriching `ids` in order, the id at position `i` with
      reply `replies(i)`. */
  function EnrichAll(rows: seq<Listing>, ids: seq<nat>, replies: nat -> AiReply, now: int): (rows': seq<Listing>)
    ensures |rows'| == |rows|
  {
    FoldRows(rows, ids, EnrichStep(replies, now))
  }

  /** `EnrichEffect`'s table is `EnrichRows`'s. */
  lemma EnrichEffectRows(id: nat, reply: AiReply, now: int, rows: seq<Listing>, rows': seq<Listing>,
                         r: Result<EnrichmentResult>)
    requires EnrichEffect(id, reply, now, rows, rows', r)
    ensures rows' == EnrichRows(id, reply, now, rows)
  {
  }

  lemma FoldRowsNext(rows: seq<Listing>, ids: seq<nat>, j: nat, step: (nat, Listing) -> Listing)
    requires j < |ids|
    ensures var prev := FoldRows(rows, ids[..j], step);
      FoldRows(rows, ids[..j + 1], step)
        == if 1 <= ids[j] <= |prev| then prev[ids[j] - 1 := step(j, prev[ids[j] - 1])] else prev
  {
    assert ids[..j + 1][..j] == ids[..j];
  }

  /** Two steps that agree everywhere make the same table. */
  lemma {:induction false} FoldRowsExt(rows: seq<Listing>, ids: seq<nat>, step: (nat, Listing) -> Listing,
                                       step': (nat, Listing) -> Listing)
    requires forall i: nat, l: Listing :: step(i, l) == step'(i, l)
    ensures FoldRows(rows, ids, step) == FoldRows(rows, ids, step')
  {
    if ids != [] {
      FoldRowsExt(rows, ids[..|ids| - 1], step, step');
    }
  }

  /** A row whose id is not in the batch is left as it was. */
  lemma {:induction false} FoldRowsUnchanged(rows: seq<Listing>, ids: seq<nat>, step: (nat, Listing) -> Listing, k: nat)
    requires k < |rows| && k + 1 !in ids
    ensures FoldRows(rows, ids, step)[k] == rows[k]
  {
    if ids != [] {
      var init := ids[..|ids| - 1];
      assert ids == init + [ids[|ids| - 1]];
      FoldRowsUnchanged(rows, init, step, k);
    }
  }

  /** The row of an id ends as its last enrichment in the batch leaves it,
      that enrichment starting from the row as the batch had left it. */
  lemma {:induction false} FoldRowsLast(rows: seq<Listing>, ids: seq<nat>, step: (nat, Listing) -> Listing, i: nat)
    requires i < |ids| && 1 <= ids[i] <= |rows| && ids[i] !in ids[i + 1..]
    ensures FoldRows(rows, ids, step)[ids[i] - 1] == step(i, FoldRows(rows, ids[..i], step)[ids[i] - 1])
  {
    var n := |ids| - 1;
    var init := ids[..n];
    if i < n {
      assert ids[i + 1..] == init[i + 1..] + [ids[n]];
      assert init[i] == ids[i] && init[..i] == ids[..i];
      FoldRowsLast(rows, init, step, i);
    }
  }

  /** An id that occurs once in the batch ends as one enrichment of its
      original row leaves it: completed with the result mapped from its own
      reply, or failed. */
  lemma EnrichAllOnce(rows: seq<Listing>, ids: seq<nat>, replies: nat -> AiReply, now: int, i: nat)
    requires i < |ids| && 1 <= ids[i] <= |rows| && ids[i] !in ids[..i] && ids[i] !in ids[i + 1..]
    ensures EnrichAll(rows, ids, replies, now)[ids[i] - 1] == EnrichedAt(rows[ids[i] - 1], replies(i), now)
    ensures replies(i).Reply? ==>
      EnrichAll(rows, ids, replies, now)[ids[i] - 1] == EnrichedRow(rows[ids[i] - 1], MapResult(replies(i).doc, rows[ids[i] - 1]), now)
    ensures replies(i).CallFailed? ==>
      EnrichAll(rows, ids, replies, now)[ids[i] - 1] == rows[ids[i] - 1].(enrichmentStatus := Failed, updatedAt := now)
  {
    FoldRowsLast(rows, ids, EnrichStep(replies, now), i);
    FoldRowsUnchanged(rows, ids[..i], EnrichStep(replies, now), ids[i] - 1);
  }

  /** After a batch the rows of other ids are as they were, and every row of
      an id in the batch is completed or failed. */
  lemma EnrichAllSettles(rows: seq<Listing>, ids: seq<nat>, replies: nat -> AiReply, now: int)
    ensures BatchRows(rows, EnrichAll(rows, ids, replies, now), ids)
  {
    var step := EnrichStep(replies, now);
    var t := FoldRows(rows, ids, step);
    forall k | 0 <= k < |t| && k + 1 !in ids ensures t[k] == rows[k] {
      FoldRowsUnchanged(rows, ids, step, k);
    }
    forall k | 0 <= k < |t| && k + 1 in ids ensures Settled(t[k]) {
      var i := LastIndex(ids, k + 1);
      FoldRowsLast(rows, ids, step, i);
      var l := FoldRows(rows, ids[..i], step)[k];
      assert t[k] == EnrichedAt(l, replies(i), now);
    }
  }

  /** The position of the last occurrence of `x`. */
  function LastIndex(ids: seq<nat>, x: nat): (i: nat)
    requires x in ids
    ensures i < |ids| && ids[i] == x && x !in ids[i + 1..]
  {
    if ids[|ids| - 1] == x then |ids| - 1
    else
      var i := LastIndex(ids[..|ids| - 1], x);
      assert ids[i + 1..] == ids[..|ids| - 1][i + 1..] + [ids[|ids| - 1]];
      i
  }

  lemma NotFoundEffect(id: nat, reply: AiReply, now: int, rows: seq<Listing>)
    requires !(1 <= id <= |rows|)
    ensures EnrichEffect(id, reply, now, rows, rows, Err(NotFound(id)))
  {
  }

  lemma FailedEffect(id: nat, reply: AiReply, now: int, rows: seq<Listing>, rows': seq<Listing>, r: Result<EnrichmentResult>)
    requires 1 <= id <= |rows| && reply.CallFailed?
    requires rows' == rows[id - 1 := rows[id - 1].(enrichmentStatus := Failed, updatedAt := now)]
    requires r == Err(reply.message)
    ensures EnrichEffect(id, reply, now, rows, rows', r)
  {
  }

  lemma CompletedEffect(id: nat, reply: AiReply, now: int, rows: seq<Listing>, rows': seq<Listing>, r: Result<EnrichmentResult>)
    requires 1 <= id <= |rows| && reply.Reply?
    requires rows' == rows[id - 1 := EnrichedRow(rows[id - 1], MapResult(reply.doc, rows[id - 1]), now)]
    requires r == Ok(MapResult(reply.doc, rows[id - 1]))
    ensures EnrichEffect(id, reply, now, rows, rows', r)
  {
  }

  /** An enrichment fails exactly when `enrichBatch` records an error for it,
      with the same message. */
  lemma EnrichEffectOutcome(id: nat, reply: AiReply, now: int, rows: seq<Listing>, rows': seq<Listing>,
                            r: Result<EnrichmentResult>)
    requires EnrichEffect(id, reply, now, rows, rows', r)
    ensures r.Ok? <==> BatchError(|rows|, id, reply).None?
    ensures r.Err? ==> BatchError(|rows|, id, reply) == Some(ErrorEntry(id, r.error))
    ensures |rows'| == |rows|
  {
  }

  /** The error message of a lookup that finds no row. */
  function NotFound(id: nat): string {
    "Firearms auction " + Decimal(id) + " not found"
  }

  /** What `enrichBatch` records for one id: `None` when the enrichment
      succeeds, else the error entry; the enrichment fails when the id names
      no row of a table of `rowCount` rows or the AI call fails. */
  function BatchError(rowCount: nat, id: nat, reply: AiReply): (e: Option<ErrorEntry>)
    ensures e.Some? <==> !(1 <= id <= rowCount) || reply.CallFailed?
    ensures e.Some? ==> e.value.id == id
  {
    if !(1 <= id <= rowCount) then Some(ErrorEntry(id, NotFound(id)))
    else if reply.CallFailed? then Some(ErrorEntry(id, reply.message))
    else None
  }

  /** The error list of a batch over `ids`, the reply for the id at position
      `i` being `replies(i)`. */
  function BatchErrors(rowCount: nat, ids: seq<nat>, replies: nat -> AiReply): (r: seq<ErrorEntry>)
    ensures |r| <= |ids|
  {
    if ids == [] then []
    else
      var e := BatchError(rowCount, ids[|ids| - 1], replies(|ids| - 1));
      BatchErrors(rowCount, ids[..|ids| - 1], replies) + (if e.Some? then [e.value] else [])
  }

  /** An id has an error entry exactly when it fails at some position of
      the batch. */
  lemma {:induction false} BatchErrorsAreFailures(rowCount: nat, ids: seq<nat>, replies: nat -> AiReply)
    ensures forall x :: x in ErrorIds(BatchErrors(rowCount, ids, replies)) <==>
      exists i :: 0 <= i < |ids| && ids[i] == x && BatchError(rowCount, x, replies(i)).Some?
  {
    if ids != [] {
      var n := |ids| - 1;
      var front := ids[..n];
      BatchErrorsAreFailures(rowCount, front, replies);
      var e := BatchError(rowCount, ids[n], replies(n));
      var rest := BatchErrors(rowCount, front, replies);
      assert BatchErrors(rowCount, ids, replies) == rest + (if e.Some? then [e.value] else []);
      assert ErrorIds(BatchErrors(rowCount, ids, replies)) == ErrorIds(rest) + (if e.Some? then [ids[n]] else []);
      forall x ensures x in ErrorIds(BatchErrors(rowCount, ids, replies)) ==>
        exists i :: 0 <= i < |ids| && ids[i] == x && BatchError(rowCount, x, replies(i)).Some?
      {
        if x in ErrorIds(rest) {
          var i :| 0 <= i < |front| && front[i] == x && BatchError(rowCount, x, replies(i)).Some?;
          assert ids[i] == x;
        }
      }
      forall x, i | 0 <= i < |ids| && ids[i] == x && BatchError(rowCount, x, replies(i)).Some?
        ensures x in ErrorIds(BatchErrors(rowCount, ids, replies))
      {
        if i < n {
          assert front[i] == x;
        }
      }
    }
  }

  /** `getEnrichmentStats` counts: rows in the given status. */
  function CountStatus(rows: seq<Listing>, s: EnrichmentStatus): (n: nat)
    ensures n <= |rows|
  {
    if rows == [] then 0
    else CountStatus(rows[..|rows| - 1], s) + (if rows[|rows| - 1].enrichmentStatus == s then 1 else 0)
  }

  datatype EnrichmentStats = EnrichmentStats(total: nat, pending: nat, processing: nat, completed: nat, failed: nat)

  /** `getEnrichmentStats()` over the table's rows. */
  function Stats(rows: seq<Listing>): EnrichmentStats {
    EnrichmentStats(|rows|, CountStatus(rows, Pending), CountStatus(rows, Processing),
                    CountStatus(rows, Completed), CountStatus(rows, Failed))
  }

  /** Every row is in exactly one of the four statuses or holds some other
      value, so the four counts add up to the total less the rows with
      another value, and never exceed it. */
  lemma {:induction false} StatsPartition(rows: seq<Listing>)
    ensures var st := Stats(rows);
      st.pending + st.processing + st.completed + st.failed + CountStatus(rows, Unknown) == st.total
    ensures var st := Stats(rows); st.pending + st.processing + st.completed + st.failed <= st.total
    ensures (forall k :: 0 <= k < |rows| ==> rows[k].enrichmentStatus != Unknown) ==>
      var st := Stats(rows); st.pending + st.processing + st.completed + st.failed == st.total
  {
    if rows != [] {
      StatsPartition(rows[..|rows| - 1]);
    }
  }

  /** Changing one row's status moves one unit between two counts. */
  lemma {:induction false} CountStatusUpdate(rows: seq<Listing>, k: nat, row: Listing, s: EnrichmentStatus)
    requires k < |rows|
    ensures CountStatus(rows[k := row], s) + (if rows[k].enrichmentStatus == s then 1 else 0)
         == CountStatus(rows, s) + (if row.enrichmentStatus == s then 1 else 0)
  {
    var n := |rows| - 1;
    if k < n {
      assert rows[k := row][..n] == rows[..n][k := row];
      CountStatusUpdate(rows[..n], k, row, s);
    } else {
      assert rows[k := row][..n] == rows[..n];
    }
  }

  class FirearmEnrichmentService {
    const store: AuctionTable

    constructor(store: AuctionTable)
      ensures this.store == store
    {
      this.store := store;
    }

    /** `enrichFirearmAuction(auctionId)` with the chat completion giving
        `reply`: an unknown id fails without touching the table; otherwise the
        row is marked processing, then either completed with the mapped result
        or, when the call fails, marked failed, the error being passed on. */
    method EnrichFirearmAuction(id: nat, reply: AiReply, now: int) returns (r: Result<EnrichmentResult>)
      requires store.Valid()
      modifies store
      ensures store.Valid()
      ensures EnrichEffect(id, reply, now, old(store.rows), store.rows, r)
    {
      var found := store.RowById(id);
      if found.None? {
        NotFoundEffect(id, reply, now, store.rows);
        return Err(NotFound(id));
      }
      var auction := found.value;
      ghost var rows := store.rows;
      store.Update(auction.(enrichmentStatus := Processing));
      match reply
      case CallFailed(message) =>
        FailedAfterProcessing(auction, now);
        store.Update(auction.(enrichmentStatus := Failed, updatedAt := now));
        UpdateTwice(rows, id - 1, auction.(enrichmentStatus := Processing), auction.(enrichmentStatus := Failed, updatedAt := now));
        r := Err(message);
        FailedEffect(id, reply, now, old(store.rows), store.rows, r);
      case Reply(doc) =>
        var result := MapResult(doc, auction);
        store.Update(EnrichedRow(auction, result, now));
        UpdateTwice(rows, id - 1, auction.(enrichmentStatus := Processing), EnrichedRow(auction, result, now));
        r := Ok(result);
        CompletedEffect(id, reply, now, old(store.rows), store.rows, r);
    }

    /** One chunk `ids[start..end]` of `enrichBatch`, enriched in order, the
        counters and error list carried over from the chunks before. */
    method EnrichChunk(ids: seq<nat>, start: nat, end: nat, replies: nat -> AiReply, now: int, ghost init: seq<Listing>,
                       ghost step: (nat, Listing) -> Listing, successful0: nat, failed0: nat, errors0: seq<ErrorEntry>)
      returns (successful: nat, failed: nat, errors: seq<ErrorEntry>)
      requires start <= end <= |ids| && store.Valid() && StepIs(step, replies, now)
      requires errors0 == BatchErrors(|init|, ids[..start], replies)
      requires failed0 == |errors0| && successful0 + failed0 == start
      requires store.rows == FoldRows(init, ids[..start], step)
      modifies store
      ensures store.Valid()
      ensures errors == BatchErrors(|init|, ids[..end], replies)
      ensures failed == |errors| && successful + failed == end
      ensures store.rows == FoldRows(init, ids[..end], step)
    {
      successful, failed, errors := successful0, failed0, errors0;
      var j := start;
      while j < end
        invariant start <= j <= end
        invariant store.Valid()
        invariant errors == BatchErrors(|init|, ids[..j], replies)
        invariant failed == |errors| && successful + failed == j
        invariant store.rows == FoldRows(init, ids[..j], step)
      {
        successful, failed, errors := EnrichNext(ids, j, replies, now, init, step, successful, failed, errors);
        j := j + 1;
      }
    }

    /** One id of a batch: it is enriched, and counted as a success, or as a
        failure with its error entry, exactly as `BatchError` says. */
    method EnrichNext(ids: seq<nat>, j: nat, replies: nat -> AiReply, now: int, ghost init: seq<Listing>,
                      ghost step: (nat, Listing) -> Listing, successful0: nat, failed0: nat, errors0: seq<ErrorEntry>)
      returns (successful: nat, failed: nat, errors: seq<ErrorEntry>)
      requires j < |ids| && store.Valid() && StepIs(step, replies, now)
      requires errors0 == BatchErrors(|init|, ids[..j], replies)
      requires failed0 == |errors0| && successful0 + failed0 == j
      requires store.rows == FoldRows(init, ids[..j], step)
      modifies store
      ensures store.Valid()
      ensures errors == BatchErrors(|init|, ids[..j + 1], replies)
      ensures failed == |errors| && successful + failed == j + 1
      ensures store.rows == FoldRows(init, ids[..j + 1], step)
    {
      ghost var before := store.rows;
      var r := EnrichFirearmAuction(ids[j], replies(j), now);
      EnrichEffectOutcome(ids[j], replies(j), now, before, store.rows, r);
      EnrichEffectRows(ids[j], replies(j), now, before, store.rows, r);
      FoldRowsNext(init, ids, j, step);
      if 1 <= ids[j] <= |before| {
        assert step(j, before[ids[j] - 1]) == EnrichedAt(before[ids[j] - 1], replies(j), now);
      }
      BatchErrorsStep(|init|, ids, j, replies);
      if r.Ok? {
        successful, failed, errors := successful0 + 1, failed0, errors0;
      } else {
        successful, failed, errors := successful0, failed0 + 1, errors0 + [ErrorEntry(ids[j], r.error)];
      }
    }

    /** `enrichBatch(auctionIds, concurrency)` with `replies(i)` the AI reply for
        the id at position `i`: ids are enriched in order, in chunks of
        `concurrency`, each exactly once; the errors are exactly the failing
        ids' entries, in order, and every other id counts as a success. Rows
        of ids not in the batch are unchanged, and every row of an id in the
        batch ends completed or failed. */
    method EnrichBatch(ids: seq<nat>, concurrency: nat, replies: nat -> AiReply, now: int)
      returns (successful: nat, failed: nat, errors: seq<ErrorEntry>)
      requires store.Valid() && concurrency > 0
      modifies store
      ensures store.Valid()
      ensures errors == BatchErrors(|old(store.rows)|, ids, replies)
      ensures failed == |errors| && successful + failed == |ids|
      ensures BatchRows(old(store.rows), store.rows, ids)
      ensures store.rows == EnrichAll(old(store.rows), ids, replies, now)
    {
      assert StepIs(EnrichStep(replies, now), replies, now);
      ghost var step: (nat, Listing) -> Listing :| StepIs(step, replies, now);
      forall n: nat, l: Listing ensures step(n, l) == EnrichStep(replies, now)(n, l) {
        StepIsAt(step, replies, now, n, l);
      }
      successful, failed, errors := 0, 0, [];
      var i := 0;
      while i < |ids|
        invariant 0 <= i <= |ids|
        invariant store.Valid()
        invariant errors == BatchErrors(|old(store.rows)|, ids[..i], replies)
        invariant failed == |errors| && successful + failed == i
        invariant store.rows == FoldRows(old(store.rows), ids[..i], step)
        decreases |ids| - i
      {
        var end := if i + concurrency <= |ids| then i + concurrency else |ids|;
        successful, failed, errors := EnrichChunk(ids, i, end, replies, now, old(store.rows), step, successful, failed, errors);
        i := end;
      }
      assert ids[..i] == ids;
      FoldRowsExt(old(store.rows), ids, step, EnrichStep(replies, now));
      EnrichAllSettles(old(store.rows), ids, replies, now);
    }
  }

  lemma FailedAfterProcessing(l: Listing, now: int)
    ensures l.(enrichmentStatus := Processing).(enrichmentStatus := Failed, updatedAt := now)
         == l.(enrichmentStatus := Failed, updatedAt := now)
  {
  }

  lemma UpdateTwice(s: seq<Listing>, k: nat, a: Listing, b: Listing)
    requires k < |s|
    ensures s[k := a][k := b] == s[k := b]
  {
  }

  /** The error list grows by the entry of the next id, if any. */
  lemma BatchErrorsStep(rowCount: nat, ids: seq<nat>, j: nat, replies: nat -> AiReply)
    requires j < |ids|
    ensures var e := BatchError(rowCount, ids[j], replies(j));
      BatchErrors(rowCount, ids[..j + 1], replies)
        == BatchErrors(rowCount, ids[..j], replies) + (if e.Some? then [e.value] else [])
  {
    assert ids[..j + 1][..j] == ids[..j];
  }

  /** The table during a batch, `done` being the ids enriched so far: the
      rows of other ids are as they were, and those of `done` are settled. */
  ghost predicate BatchRows(init: seq<Listing>, rows: seq<Listing>, done: seq<nat>) {
    && |rows| == |init|
    && (forall k :: 0 <= k < |rows| && k + 1 !in done ==> rows[k] == init[k])
    && (forall k :: 0 <= k < |rows| && k + 1 in done ==> Settled(rows[k]))
  }

  /** A row that enrichment has finished with. */
  predicate Settled(l: Listing) {
    l.enrichmentStatus == Completed || l.enrichmentStatus == Failed
  }
}
