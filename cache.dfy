/**
 * The process-wide cache of main.py (`GLOBAL_CACHE`), the scrape steps of
 * `update_all_data` that write it, and the scheduler ticks of `run_scheduler`.
 *
 * The behaviour is stated twice: once as pure functions from the old cache
 * value to the new one (the specification, about which the lemmas speak), and
 * once as the class `GoldCache`, whose fields the methods overwrite step by
 * step as the source does, each method proved to agree with its function.
 */
module Cache {
  import opened Wrappers
  import opened Market
  import opened Tables

  /** What `/dailyprices` yields: each table's rows, or None where its selector wait raised (lines 111 and 128). */
  datatype DailyPage = DailyPage(percent: Option<Table>, weight: Option<Table>)

  /**
   * What one browsing session yields: the `/updatepricelist` rows, or None
   * where its navigation or wait raised (line 88); the `/dailyprices` page, or
   * None where its navigation raised (line 130).
   */
  datatype Session = Session(priceList: Option<Table>, daily: Option<DailyPage>)

  /** The five fields of `GLOBAL_CACHE`; `lastUpdated` is None until the first stamp. */
  datatype CacheState = CacheState(
    goldBar: seq<GoldRecord>,
    jewelryPercent: seq<PercentRecord>,
    jewelryWeight: seq<WeightRecord>,
    lastUpdated: Option<string>,
    marketStatus: string)

  const InitialStatus := "Initializing..."

  /** The cache at process start (lines 12-18). */
  const Initial := CacheState([], [], [], None, InitialStatus)

  /** `if temp: field = temp`: a parsed list replaces the field only when it is non-empty. */
  function Refresh<T>(current: seq<T>, parsed: seq<T>): seq<T> {
    if parsed != [] then parsed else current
  }

  /** Step 1 (lines 68-89). */
  function GoldStep(s: CacheState, priceList: Option<Table>): CacheState {
    match priceList
    case None => s
    case Some(rows) => s.(goldBar := Refresh(s.goldBar, GoldTable(rows)))
  }

  /** Step 2.1 (lines 97-111). */
  function PercentStep(s: CacheState, percent: Option<Table>): CacheState {
    match percent
    case None => s
    case Some(rows) => s.(jewelryPercent := Refresh(s.jewelryPercent, PercentTable(rows)))
  }

  /** Step 2.2 (lines 114-128). */
  function WeightStep(s: CacheState, weight: Option<Table>): CacheState {
    match weight
    case None => s
    case Some(rows) => s.(jewelryWeight := Refresh(s.jewelryWeight, WeightTable(rows)))
  }

  /** Step 2 (lines 92-131): both sub-steps, skipped together when the page did not load. */
  function DailyStep(s: CacheState, daily: Option<DailyPage>): CacheState {
    match daily
    case None => s
    case Some(page) => WeightStep(PercentStep(s, page.percent), page.weight)
  }

  /**
   * `update_all_data` (lines 52-139): nothing without a browser (line 57) or
   * when the context or page could not be opened (line 138); otherwise both
   * steps and then the stamp `now` (line 133), whatever the steps produced.
   */
  function AfterUpdate(s: CacheState, browserPresent: bool, session: Option<Session>, now: string): CacheState {
    if !browserPresent then s
    else match session
      case None => s
      case Some(run) => DailyStep(GoldStep(s, run.priceList), run.daily).(lastUpdated := Some(now))
  }

  /** What one scheduler tick observes: the Thai-local clock, the browser, the session it would run, the stamp. */
  datatype TickInput = TickInput(clock: Timestamp, browserPresent: bool, session: Option<Session>, now: string)

  /** One iteration of `run_scheduler` (lines 143-149): write the status, update only when open. */
  function AfterTick(s: CacheState, t: TickInput): CacheState {
    var d := IsMarketOpen(t.clock);
    var s' := s.(marketStatus := d.status);
    if d.open then AfterUpdate(s', t.browserPresent, t.session, t.now) else s'
  }

  /** The ticks `ts`, one after the other. */
  function AfterTicks(s: CacheState, ts: seq<TickInput>): CacheState {
    if ts == [] then s else AfterTick(AfterTicks(s, ts[..|ts| - 1]), ts[|ts| - 1])
  }

  /** The cache after start-up (lines 161-168): the browser is up and one update runs, whatever the calendar says. */
  function BootState(session: Option<Session>, now: string): CacheState {
    AfterUpdate(Initial, true, session, now)
  }

  /** Without a browser, or when no page could be opened, an update changes nothing at all. */
  lemma UpdateWithoutSession(s: CacheState, browserPresent: bool, session: Option<Session>, now: string)
    requires !browserPresent || session.None?
    ensures AfterUpdate(s, browserPresent, session, now) == s
  {
  }

  /** Once a session is open the stamp is written even if every step failed; the status is never touched. */
  lemma UpdateStamps(s: CacheState, run: Session, now: string)
    ensures AfterUpdate(s, true, Some(run), now).lastUpdated == Some(now)
    ensures AfterUpdate(s, true, Some(run), now).marketStatus == s.marketStatus
    ensures run.priceList.None? && run.daily.None? ==> AfterUpdate(s, true, Some(run), now) == s.(lastUpdated := Some(now))
  {
  }

  /**
   * Each list is replaced wholesale by its parsed table exactly when that table
   * has a long-enough row; otherwise (a failed step, or only short rows) it
   * keeps its previous value unchanged.
   */
  lemma UpdateReplacesOrRetains(s: CacheState, run: Session, now: string)
    ensures var r := AfterUpdate(s, true, Some(run), now);
      && (if run.priceList.Some? && exists x :: x in run.priceList.value && |x| >= GoldCells
          then r.goldBar == GoldTable(run.priceList.value) && r.goldBar != []
          else r.goldBar == s.goldBar)
      && (if run.daily.Some? && run.daily.value.percent.Some?
             && exists x :: x in run.daily.value.percent.value && |x| >= PercentCells
          then r.jewelryPercent == PercentTable(run.daily.value.percent.value) && r.jewelryPercent != []
          else r.jewelryPercent == s.jewelryPercent)
      && (if run.daily.Some? && run.daily.value.weight.Some?
             && exists x :: x in run.daily.value.weight.value && |x| >= WeightCells
          then r.jewelryWeight == WeightTable(run.daily.value.weight.value) && r.jewelryWeight != []
          else r.jewelryWeight == s.jewelryWeight)
  {
    if run.priceList.Some? {
      RecordsEmptyIff(run.priceList.value, GoldCells, GoldOf);
    }
    if run.daily.Some? && run.daily.value.percent.Some? {
      RecordsEmptyIff(run.daily.value.percent.value, PercentCells, PercentOf);
    }
    if run.daily.Some? && run.daily.value.weight.Some? {
      RecordsEmptyIff(run.daily.value.weight.value, WeightCells, WeightOf);
    }
  }

  /** Running the same update twice leaves the cache as running it once. */
  lemma UpdateIdempotent(s: CacheState, browserPresent: bool, session: Option<Session>, now: string)
    ensures var once := AfterUpdate(s, browserPresent, session, now);
      AfterUpdate(once, browserPresent, session, now) == once
  {
  }

  /** An update never empties a list that held data. */
  lemma UpdateKeepsData(s: CacheState, browserPresent: bool, session: Option<Session>, now: string)
    ensures var r := AfterUpdate(s, browserPresent, session, now);
      && (s.goldBar != [] ==> r.goldBar != [])
      && (s.jewelryPercent != [] ==> r.jewelryPercent != [])
      && (s.jewelryWeight != [] ==> r.jewelryWeight != [])
  {
  }

  /** A tick writes the status of the calendar rule and, when the market is closed, nothing else. */
  lemma TickStatus(s: CacheState, t: TickInput)
    ensures AfterTick(s, t).marketStatus == IsMarketOpen(t.clock).status
    ensures !IsMarketOpen(t.clock).open ==> AfterTick(s, t) == s.(marketStatus := IsMarketOpen(t.clock).status)
    ensures t.clock.weekday == Sunday ==> AfterTick(s, t) == s.(marketStatus := LabelSunday)
  {
  }

  /** However many ticks run, a list that held data still holds data: `/api/latest` never goes back to waiting. */
  lemma {:induction false} TicksKeepData(s: CacheState, ts: seq<TickInput>)
    ensures var r := AfterTicks(s, ts);
      && (s.goldBar != [] ==> r.goldBar != [])
      && (s.jewelryPercent != [] ==> r.jewelryPercent != [])
      && (s.jewelryWeight != [] ==> r.jewelryWeight != [])
  {
    if ts != [] {
      var init, last := ts[..|ts| - 1], ts[|ts| - 1];
      TicksKeepData(s, init);
      var m := AfterTicks(s, init);
      var d := IsMarketOpen(last.clock);
      UpdateKeepsData(m.(marketStatus := d.status), last.browserPresent, last.session, last.now);
    }
  }

  /** Ticks on which the market is closed (every Sunday tick among them) leave all data and the stamp alone. */
  lemma {:induction false} ClosedTicksKeepData(s: CacheState, ts: seq<TickInput>)
    requires forall i :: 0 <= i < |ts| ==> !IsMarketOpen(ts[i].clock).open
    ensures var r := AfterTicks(s, ts);
      && r.goldBar == s.goldBar && r.jewelryPercent == s.jewelryPercent
      && r.jewelryWeight == s.jewelryWeight && r.lastUpdated == s.lastUpdated
  {
    if ts != [] {
      ClosedTicksKeepData(s, ts[..|ts| - 1]);
    }
  }

  /** The boot update keeps the initial status, and stamps exactly when a session could be opened. */
  lemma BootStamps(session: Option<Session>, now: string)
    ensures BootState(session, now).marketStatus == InitialStatus
    ensures BootState(session, now).lastUpdated == (if session.Some? then Some(now) else None)
  {
  }

  /** `GLOBAL_CACHE`: one field per key, overwritten in place by the scrape steps and the scheduler. */
  class GoldCache {
    var goldBar: seq<GoldRecord>
    var jewelryPercent: seq<PercentRecord>
    var jewelryWeight: seq<WeightRecord>
    var lastUpdated: Option<string>
    var marketStatus: string

    function State(): CacheState
      reads this
    {
      CacheState(goldBar, jewelryPercent, jewelryWeight, lastUpdated, marketStatus)
    }

    constructor ()
      ensures State() == Initial
    {
      goldBar, jewelryPercent, jewelryWeight := [], [], [];
      lastUpdated, marketStatus := None, InitialStatus;
    }

    /** Step 1: parse the price-list rows and overwrite `goldBar` when the list is non-empty. */
    method ScrapeGoldBar(priceList: Option<Table>)
      modifies this`goldBar
      ensures State() == GoldStep(old(State()), priceList)
    {
      match priceList {
        case None =>
        case Some(rows) =>
          var temp := ParseRows(rows, GoldCells, GoldOf);
          if temp != [] {
            goldBar := temp;
          }
      }
    }

    /** Step 2.1. */
    method ScrapePercent(percent: Option<Table>)
      modifies this`jewelryPercent
      ensures State() == PercentStep(old(State()), percent)
    {
      match percent {
        case None =>
        case Some(rows) =>
          var temp := ParseRows(rows, PercentCells, PercentOf);
          if temp != [] {
            jewelryPercent := temp;
          }
      }
    }

    /** Step 2.2. */
    method ScrapeWeight(weight: Option<Table>)
      modifies this`jewelryWeight
      ensures State() == WeightStep(old(State()), weight)
    {
      match weight {
        case None =>
        case Some(rows) =>
          var temp := ParseRows(rows, WeightCells, WeightOf);
          if temp != [] {
            jewelryWeight := temp;
          }
      }
    }

    /** Step 2: the daily-prices page, then its two tables. */
    method ScrapeDailyPrices(daily: Option<DailyPage>)
      modifies this`jewelryPercent, this`jewelryWeight
      ensures State() == DailyStep(old(State()), daily)
    {
      match daily {
        case None =>
        case Some(page) =>
          ScrapePercent(page.percent);
          ScrapeWeight(page.weight);
      }
    }

    /** `update_all_data`. */
    method UpdateAllData(browserPresent: bool, session: Option<Session>, now: string)
      modifies this
      ensures State() == AfterUpdate(old(State()), browserPresent, session, now)
    {
      if !browserPresent {
        return;
      }
      match session {
        case None =>
        case Some(run) =>
          ScrapeGoldBar(run.priceList);
          ScrapeDailyPrices(run.daily);
          lastUpdated := Some(now);
      }
    }

    /** One iteration of the `run_scheduler` loop. */
    method Tick(t: TickInput)
      modifies this
      ensures State() == AfterTick(old(State()), t)
    {
      var d := IsMarketOpen(t.clock);
      marketStatus := d.status;
      if d.open {
        UpdateAllData(t.browserPresent, t.session, t.now);
      }
    }

    /** The `run_scheduler` loop over the ticks `ts`. */
    method RunScheduler(ts: seq<TickInput>)
      modifies this
      ensures State() == AfterTicks(old(State()), ts)
    {
      for i := 0 to |ts|
        invariant State() == AfterTicks(old(State()), ts[..i])
      {
        assert ts[..i + 1][..i] == ts[..i];
        Tick(ts[i]);
      }
      assert ts[..|ts|] == ts;
    }

    /** Start-up (lines 161-170): the unconditional first update, then the scheduler. */
    method Boot(session: Option<Session>, now: string, ts: seq<TickInput>)
      modifies this
      ensures State() == AfterTicks(AfterUpdate(old(State()), true, session, now), ts)
    {
      UpdateAllData(true, session, now);
      RunScheduler(ts);
    }
  }
}
