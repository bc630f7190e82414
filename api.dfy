/**
 * The read endpoints of main.py (lines 184-251) as pure projections of the
 * cache: each gives the JSON body and the `Cache-Control` header it sets,
 * None where it sets none.
 */
module Api {
  import opened Wrappers
  import opened Tables
  import opened Cache

  datatype Response<B> = Response(cacheControl: Option<string>, body: B)

  const ShortCache := "public, max-age=10, s-maxage=10"
  const DataCache := "public, max-age=60, s-maxage=60"
  const RootMessage := "Thai Gold Price API (Cloudflare Ready)"

  datatype RootBody = RootBody(message: string, marketStatus: string, lastUpdated: Option<string>)

  /** `/api/latest`: `{"status": "waiting_for_data", ...}` or `{"status": "success", ...}`. */
  datatype LatestBody =
    | LatestWaiting(marketStatus: string)
    | LatestSuccess(marketStatus: string, data: GoldRecord, updatedAt: Option<string>)

  /** `/api/gold`: the buy side of the latest quote only. */
  datatype GoldBody =
    | GoldWaiting
    | GoldSuccess(bullionBuy: string, ornamentBuy: string, updatedAt: Option<string>)

  /** `{"count": ..., "data": ...}` of the three list endpoints. */
  datatype ListBody<T> = ListBody(count: nat, data: seq<T>)

  /** `GET /`: status and stamp, cached for ten seconds. */
  function ReadRoot(s: CacheState): (r: Response<RootBody>)
    ensures r.cacheControl == Some(ShortCache)
    ensures r.body.marketStatus == s.marketStatus && r.body.lastUpdated == s.lastUpdated
  {
    Response(Some(ShortCache), RootBody(RootMessage, s.marketStatus, s.lastUpdated))
  }

  /** `GET /api/latest`: waiting and uncached on an empty list; else the newest (last) quote, cached for a minute. */
  function GetLatest(s: CacheState): (r: Response<LatestBody>)
    ensures r.body.LatestWaiting? <==> s.goldBar == []
    ensures r.cacheControl == (if s.goldBar == [] then None else Some(DataCache))
    ensures r.body.marketStatus == s.marketStatus
    ensures r.body.LatestSuccess? ==>
      && r.body.data in s.goldBar && r.body.data == s.goldBar[|s.goldBar| - 1]
      && r.body.updatedAt == s.lastUpdated
  {
    var data := s.goldBar;
    if data == [] then Response(None, LatestWaiting(s.marketStatus))
    else Response(Some(DataCache), LatestSuccess(s.marketStatus, data[|data| - 1], s.lastUpdated))
  }

  /** `GET /api/gold`. */
  function GetGoldBuyOnly(s: CacheState): (r: Response<GoldBody>)
    ensures r.body.GoldWaiting? <==> s.goldBar == []
    ensures r.cacheControl == (if s.goldBar == [] then None else Some(DataCache))
    ensures r.body.GoldSuccess? ==> r.body.updatedAt == s.lastUpdated
  {
    var data := s.goldBar;
    if data == [] then Response(None, GoldWaiting)
    else
      var latest := data[|data| - 1];
      Response(Some(DataCache), GoldSuccess(latest.bullionBuy, latest.ornamentBuy, s.lastUpdated))
  }

  /** `/api/history`, `/api/percent_jewelry` and `/api/weight_jewelry`: the whole list and its length. */
  function ListOf<T>(data: seq<T>): (r: Response<ListBody<T>>)
    ensures r.cacheControl == Some(DataCache)
    ensures r.body.data == data && r.body.count == |r.body.data|
  {
    Response(Some(DataCache), ListBody(|data|, data))
  }

  function GetHistory(s: CacheState): (r: Response<ListBody<GoldRecord>>)
    ensures r.cacheControl == Some(DataCache)
    ensures r.body.count == |s.goldBar| && r.body.data == s.goldBar
  {
    ListOf(s.goldBar)
  }

  function GetPercent(s: CacheState): (r: Response<ListBody<PercentRecord>>)
    ensures r.cacheControl == Some(DataCache)
    ensures r.body.count == |s.jewelryPercent| && r.body.data == s.jewelryPercent
  {
    ListOf(s.jewelryPercent)
  }

  function GetWeight(s: CacheState): (r: Response<ListBody<WeightRecord>>)
    ensures r.cacheControl == Some(DataCache)
    ensures r.body.count == |s.jewelryWeight| && r.body.data == s.jewelryWeight
  {
    ListOf(s.jewelryWeight)
  }

  /** `/api/gold` is the buy side of `/api/latest`: both wait together, and otherwise agree on the quote and header. */
  lemma GoldAgreesWithLatest(s: CacheState)
    ensures GetGoldBuyOnly(s).body.GoldWaiting? <==> GetLatest(s).body.LatestWaiting?
    ensures GetGoldBuyOnly(s).cacheControl == GetLatest(s).cacheControl
    ensures GetLatest(s).body.LatestSuccess? ==>
      && GetGoldBuyOnly(s).body.bullionBuy == GetLatest(s).body.data.bullionBuy
      && GetGoldBuyOnly(s).body.ornamentBuy == GetLatest(s).body.data.ornamentBuy
  {
  }

  /** `/api/latest` is the last element of `/api/history`, whose count is never zero when it succeeds. */
  lemma LatestIsLastOfHistory(s: CacheState)
    requires GetLatest(s).body.LatestSuccess?
    ensures var h := GetHistory(s).body;
      h.count > 0 && GetLatest(s).body.data == h.data[h.count - 1]
  {
  }

  /**
   * After an update whose price list has a row of at least ten cells,
   * `/api/latest` serves the newest record of the freshly parsed list (the
   * record of the last such row, by `Tables.RecordsLast`), stamped with the
   * update's time, cached for a minute.
   */
  lemma LatestAfterUpdate(s: CacheState, run: Session, now: string)
    requires run.priceList.Some?
    requires exists x :: x in run.priceList.value && |x| >= GoldCells
    ensures var t := GoldTable(run.priceList.value);
      var r := GetLatest(AfterUpdate(s, true, Some(run), now));
      && t != [] && r.cacheControl == Some(DataCache)
      && r.body == LatestSuccess(s.marketStatus, t[|t| - 1], Some(now))
  {
    UpdateReplacesOrRetains(s, run, now);
    UpdateStamps(s, run, now);
    var after := AfterUpdate(s, true, Some(run), now);
    var g := after.goldBar[|after.goldBar| - 1];
    assert GetLatest(after) == Response(Some(DataCache), LatestSuccess(after.marketStatus, g, after.lastUpdated));
  }

  /** Once `/api/latest` has served a quote it never answers "waiting" again, whatever ticks follow. */
  lemma LatestStaysAvailable(s: CacheState, ts: seq<TickInput>)
    requires GetLatest(s).body.LatestSuccess?
    ensures GetLatest(AfterTicks(s, ts)).body.LatestSuccess?
    ensures GetLatest(AfterTicks(s, ts)).cacheControl == Some(DataCache)
  {
    TicksKeepData(s, ts);
  }
}
