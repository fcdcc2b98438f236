/**
 * The query side of the lot reference-data client: which request parameters
 * each search sends, and how the first lot of a page is picked.
 *
 * How the remote service filters lots is not part of the client; `Page`
 * states the filtering the workflow relies on (every sent parameter must
 * match, results in catalog order).
 */
module LotQueries {
  import opened Types
  import opened ReferenceData

  datatype QueryValue = UuidValue(uuid: Uuid) | DateValue(date: Date) | TextValue(text: string)

  type Params = map<string, QueryValue>

  const TRADE_ITEM_ID := "tradeItemId"
  const LOT_CODE := "lotCode"
  const EXPIRATION_DATE := "expirationDate"
  const EXPIRATION_DATE_FROM := "expirationDateFrom"
  const EXPIRATION_DATE_TO := "expirationDateTo"

  /** Puts `key` when the value is present, and leaves `params` alone otherwise. */
  function PutIfPresent<T>(params: Params, key: string, v: Option<T>, wrap: T -> QueryValue): Params
  {
    if v.Some? then params[key := wrap(v.value)] else params
  }

  /** `getAllLotsMatching(tradeItemId, expirationDate)`. */
  function MatchingParams(tradeItemId: Option<Uuid>, expirationDate: Option<Date>): (p: Params)
    ensures p.Keys <= {TRADE_ITEM_ID, EXPIRATION_DATE}
    ensures TRADE_ITEM_ID in p <==> tradeItemId.Some?
    ensures tradeItemId.Some? ==> p[TRADE_ITEM_ID] == UuidValue(tradeItemId.value)
    ensures EXPIRATION_DATE in p <==> expirationDate.Some?
    ensures expirationDate.Some? ==> p[EXPIRATION_DATE] == DateValue(expirationDate.value)
  {
    var p0: Params := map[];
    var p1 := PutIfPresent(p0, TRADE_ITEM_ID, tradeItemId, (u: Uuid) => UuidValue(u));
    PutIfPresent(p1, EXPIRATION_DATE, expirationDate, (d: Date) => DateValue(d))
  }

  /** `getAllLotsOf(tradeItemId)`: only the trade item is ever sent. */
  function LotsOfParams(tradeItemId: Option<Uuid>): (p: Params)
    ensures p.Keys <= {TRADE_ITEM_ID}
    ensures TRADE_ITEM_ID in p <==> tradeItemId.Some?
    ensures tradeItemId.Some? ==> p[TRADE_ITEM_ID] == UuidValue(tradeItemId.value)
  {
    MatchingParams(tradeItemId, None)
  }

  /** `getAllLotsExpiringOn(expirationDate)`: only the expiration date is ever sent. */
  function ExpiringOnParams(expirationDate: Option<Date>): (p: Params)
    ensures p.Keys <= {EXPIRATION_DATE}
    ensures EXPIRATION_DATE in p <==> expirationDate.Some?
    ensures expirationDate.Some? ==> p[EXPIRATION_DATE] == DateValue(expirationDate.value)
  {
    MatchingParams(None, expirationDate)
  }

  /** `getLotMatching(lotDto)`: reads only the DTO's trade item id and lot code. */
  function LotMatchingParams(tradeItemId: Option<Uuid>, lotCode: Option<string>): (p: Params)
    ensures p.Keys <= {TRADE_ITEM_ID, LOT_CODE}
    ensures TRADE_ITEM_ID in p <==> tradeItemId.Some?
    ensures tradeItemId.Some? ==> p[TRADE_ITEM_ID] == UuidValue(tradeItemId.value)
    ensures LOT_CODE in p <==> lotCode.Some?
    ensures lotCode.Some? ==> p[LOT_CODE] == TextValue(lotCode.value)
  {
    var p0: Params := map[];
    var p1 := PutIfPresent(p0, TRADE_ITEM_ID, tradeItemId, (u: Uuid) => UuidValue(u));
    PutIfPresent(p1, LOT_CODE, lotCode, (s: string) => TextValue(s))
  }

  /** `getAllLotsBetween(tradeItemId, from, to)`. */
  function BetweenParams(tradeItemId: Option<Uuid>, from: Option<Date>, to: Option<Date>): (p: Params)
    ensures p.Keys <= {TRADE_ITEM_ID, EXPIRATION_DATE_FROM, EXPIRATION_DATE_TO}
    ensures TRADE_ITEM_ID in p <==> tradeItemId.Some?
    ensures tradeItemId.Some? ==> p[TRADE_ITEM_ID] == UuidValue(tradeItemId.value)
    ensures EXPIRATION_DATE_FROM in p <==> from.Some?
    ensures from.Some? ==> p[EXPIRATION_DATE_FROM] == DateValue(from.value)
    ensures EXPIRATION_DATE_TO in p <==> to.Some?
    ensures to.Some? ==> p[EXPIRATION_DATE_TO] == DateValue(to.value)
  {
    var p0: Params := map[];
    var p1 := PutIfPresent(p0, TRADE_ITEM_ID, tradeItemId, (u: Uuid) => UuidValue(u));
    var p2 := PutIfPresent(p1, EXPIRATION_DATE_FROM, from, (d: Date) => DateValue(d));
    PutIfPresent(p2, EXPIRATION_DATE_TO, to, (d: Date) => DateValue(d))
  }

  /** `getAllLotsExpiringBetween(from, to)`: never sends a trade item. */
  function ExpiringBetweenParams(from: Option<Date>, to: Option<Date>): (p: Params)
    ensures TRADE_ITEM_ID !in p
    ensures EXPIRATION_DATE_FROM in p <==> from.Some?
    ensures from.Some? ==> p[EXPIRATION_DATE_FROM] == DateValue(from.value)
    ensures EXPIRATION_DATE_TO in p <==> to.Some?
    ensures to.Some? ==> p[EXPIRATION_DATE_TO] == DateValue(to.value)
  {
    BetweenParams(None, from, to)
  }

  /** `lots.isEmpty() ? null : lots.get(0)`. */
  function FirstOrNull(page: seq<Lot>): (r: Option<Lot>)
    ensures r.None? <==> page == []
    ensures r.Some? ==> r.value == page[0]
  {
    if page == [] then None else Some(page[0])
  }

  /** A lot satisfies a sent parameter when its field equals the parameter's value. */
  predicate Satisfies(l: Lot, p: Params)
  {
    && (TRADE_ITEM_ID in p ==>
          p[TRADE_ITEM_ID].UuidValue? && l.tradeItemId == Some(p[TRADE_ITEM_ID].uuid))
    && (LOT_CODE in p ==> p[LOT_CODE].TextValue? && l.lotCode == Some(p[LOT_CODE].text))
    && (EXPIRATION_DATE in p ==>
          p[EXPIRATION_DATE].DateValue? && l.expirationDate == Some(p[EXPIRATION_DATE].date))
  }

  /** The page the lot service answers with: the catalog's lots satisfying every parameter. */
  function Page(lots: seq<Lot>, p: Params): seq<Lot>
  {
    Filter(lots, (l: Lot) => Satisfies(l, p))
  }

  /**
   * `getLotMatching` against a catalog of lots: when not null, a lot of the
   * catalog that agrees with every field the DTO sets.
   */
  function LotMatching(lots: seq<Lot>, tradeItemId: Option<Uuid>, lotCode: Option<string>)
    : (r: Option<Lot>)
    ensures r.Some? ==> r.value in lots
    ensures r.Some? && tradeItemId.Some? ==> r.value.tradeItemId == tradeItemId
    ensures r.Some? && lotCode.Some? ==> r.value.lotCode == lotCode
  {
    var p := LotMatchingParams(tradeItemId, lotCode);
    FilterMembers(lots, (l: Lot) => Satisfies(l, p));
    var page := Page(lots, p);
    assert page != [] ==> page[0] in page;
    FirstOrNull(page)
  }

  /**
   * With both fields present, `getLotMatching` answers a lot of that trade
   * item and code when the catalog has one, and null exactly when it has none.
   */
  lemma LotMatchingFinds(lots: seq<Lot>, tradeItemId: Uuid, lotCode: string)
    ensures var r := LotMatching(lots, Some(tradeItemId), Some(lotCode));
      && (r.Some? ==> r.value in lots && r.value.tradeItemId == Some(tradeItemId) &&
                      r.value.lotCode == Some(lotCode))
      && (r.None? <==> forall l :: l in lots ==>
                         !(l.tradeItemId == Some(tradeItemId) && l.lotCode == Some(lotCode)))
  {
    var p := LotMatchingParams(Some(tradeItemId), Some(lotCode));
    assert EXPIRATION_DATE !in p;
    var page := Page(lots, p);
    FilterMembers(lots, (l: Lot) => Satisfies(l, p));
    forall l | l in lots && l.tradeItemId == Some(tradeItemId) && l.lotCode == Some(lotCode)
      ensures l in page
    {
      assert Satisfies(l, p);
    }
  }

  /** Appending a lot to the catalog leaves an existing first match in place. */
  lemma LotMatchingAppend(lots: seq<Lot>, x: Lot, tradeItemId: Option<Uuid>, lotCode: Option<string>)
    requires LotMatching(lots, tradeItemId, lotCode).Some?
    ensures LotMatching(lots + [x], tradeItemId, lotCode) == LotMatching(lots, tradeItemId, lotCode)
  {
    FilterAppend(lots, x, (l: Lot) => Satisfies(l, LotMatchingParams(tradeItemId, lotCode)));
  }

  /** A lot appended to a catalog with no match becomes the first match when it satisfies the query. */
  lemma LotMatchingAppendNew(lots: seq<Lot>, x: Lot, tradeItemId: Uuid, lotCode: string)
    requires LotMatching(lots, Some(tradeItemId), Some(lotCode)).None?
    requires x.tradeItemId == Some(tradeItemId) && x.lotCode == Some(lotCode)
    ensures LotMatching(lots + [x], Some(tradeItemId), Some(lotCode)) == Some(x)
  {
    var p := LotMatchingParams(Some(tradeItemId), Some(lotCode));
    assert EXPIRATION_DATE !in p;
    assert Satisfies(x, p);
    FilterAppend(lots, x, (l: Lot) => Satisfies(l, p));
  }
}
