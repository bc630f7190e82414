/**
 * The shop fan-out of shop.py: five extractors, each turning one shop's
 * price page into a record or into None, the `safe_scrape` wrapper that
 * turns any failure into None and closes the handle it was given, and
 * `get_all_shops_data`, which gathers the five and keeps the records that are
 * not None, in registration order.
 *
 * As written, the handle each `safe_scrape` closes is the browsing context
 * all five tasks share, so the first task to finish closes it under the other
 * four. `GetAllShopsData` models that; `GetAllShopsDataOwnPages` is the
 * corrected fan-out in which each task closes only its own page.
 *
 * A loaded page is abstracted as what the extractor's selectors find on it:
 * at most one element per selector, with its inner text and whether it is
 * visible. `wait_for_selector` succeeds when its element is visible (its
 * default state), `inner_text` when its element is present; each failure
 * raises and ends the extractor with None.
 */
module Shops {
  import opened Wrappers

  datatype Element = Element(text: string, visible: bool)
  type Page = map<string, Element>

  predicate Visible(page: Page, selector: string) {
    selector in page && page[selector].visible
  }

  /**
   * One `scrape_*` function as data: the record's shop name, the page it opens,
   * the selector it waits for, the elements holding the buy and sell prices, and
   * the optional jewelry element (only MTS Gold has one).
   */
  datatype Extractor = Extractor(name: string, url: string, ready: string, buy: string, sell: string, jewelry: Option<string>)

  /** A shop's JSON object; only MTS Gold's carries `jewelry_baht`, which may be null. */
  datatype ShopRecord =
    | Quote(shop: string, bullionBuy: string, bullionSell: string)
    | MtsQuote(shop: string, bullionBuy: string, bullionSell: string, jewelryBaht: Option<string>)

  const AuroraShop := Extractor("Aurora", "https://www.aurora.co.th/price/gold_pricelist/ราคาทองวันนี้",
    ".goldden_out h3.g-price", ".goldden_in h3.g-price", ".goldden_out h3.g-price", None)
  const MtsShop := Extractor("MTS Gold", "https://www.mtsgold.co.th/mts-price-sm/",
    "#buy965mts", "#buy965mts", "#sell965mts", Some("#sell965gold"))
  const HuaSengHengShop := Extractor("Hua Seng Heng", "https://www.huasengheng.com",
    "#bid965", "#bid965", "#ask965", None)
  const ChinHuaHengShop := Extractor("Chin Hua Heng", "https://chinhuaheng.com/gold",
    "#gpb-chh-offer", "#gpb-chh-bid", "#gpb-chh-offer", None)
  const AusirisShop := Extractor("Ausiris", "https://www.ausiris.co.th/content/index/goldprice.html",
    "#G965B_bid", "#G965B_bid", "#G965B_offer", None)

  /** The task list of lines 103-109, in registration order. */
  const Registry := [AuroraShop, MtsShop, HuaSengHengShop, ChinHuaHengShop, AusirisShop]

  /** The first position in `es` of an extractor named `name`; `|es|` when there is none. */
  function Position(es: seq<Extractor>, name: string): (k: nat)
    ensures k <= |es|
    ensures k < |es| ==> es[k].name == name
    ensures forall j :: 0 <= j < k ==> es[j].name != name
  {
    if es == [] || es[0].name == name then 0 else 1 + Position(es[1..], name)
  }

  /** A shop's position in the registration order; 5 for a name that is not registered. */
  function Rank(name: string): nat {
    Position(Registry, name)
  }

  /**
   * One extractor (lines 19-96) run on the page that `context.new_page()` and
   * `goto(url)` produced, None where either of them raised. It succeeds exactly
   * when the awaited element is visible and both price elements are present;
   * MTS Gold's `jewelry_baht` is null exactly when its element is not visible.
   */
  function Scrape(e: Extractor, loaded: Option<Page>): (r: Option<ShopRecord>)
    ensures r.Some? <==> loaded.Some? && Visible(loaded.value, e.ready) && e.buy in loaded.value && e.sell in loaded.value
    ensures r.Some? ==>
      && r.value.shop == e.name
      && r.value.bullionBuy == loaded.value[e.buy].text
      && r.value.bullionSell == loaded.value[e.sell].text
      && (r.value.MtsQuote? <==> e.jewelry.Some?)
    ensures r.Some? && e.jewelry.Some? ==>
      (r.value.jewelryBaht.None? <==> !Visible(loaded.value, e.jewelry.value))
  {
    match loaded
    case None => None
    case Some(page) =>
      if !Visible(page, e.ready) || e.buy !in page || e.sell !in page then None
      else match e.jewelry
        case None => Some(Quote(e.name, page[e.buy].text, page[e.sell].text))
        case Some(selector) =>
          var baht := if Visible(page, selector) then Some(page[selector].text) else None;
          Some(MtsQuote(e.name, page[e.buy].text, page[e.sell].text, baht))
  }

  /** MTS Gold's `jewelry_baht` is null exactly when `#sell965gold` is not visible (line 46). */
  lemma MtsJewelryBaht(loaded: Option<Page>)
    requires Scrape(MtsShop, loaded).Some?
    ensures Scrape(MtsShop, loaded).value.MtsQuote?
    ensures Scrape(MtsShop, loaded).value.jewelryBaht ==
      if Visible(loaded.value, "#sell965gold") then Some(loaded.value["#sell965gold"].text) else None
  {
  }

  /** `[r for r in results if r is not None]` (line 117). */
  function Successes(rs: seq<Option<ShopRecord>>): (r: seq<ShopRecord>)
    ensures |r| <= |rs|
    ensures forall x :: x in r <==> Some(x) in rs
  {
    if rs == [] then []
    else
      var last := rs[|rs| - 1];
      Successes(rs[..|rs| - 1]) + (if last.Some? then [last.value] else [])
  }

  /** The filter is order-preserving: it distributes over concatenation. */
  lemma {:induction false} SuccessesAppend(a: seq<Option<ShopRecord>>, b: seq<Option<ShopRecord>>)
    ensures Successes(a + b) == Successes(a) + Successes(b)
    decreases |b|
  {
    if b == [] {
      assert a + b == a;
    } else {
      var init := b[..|b| - 1];
      assert (a + b)[..|a + b| - 1] == a + init;
      assert b[..|b| - 1] == init;
      SuccessesAppend(a, init);
    }
  }

  /** What `asyncio.gather` returns for the task list `es` (line 112): outcome `i` is task `i`'s, in task order. */
  function Gather(es: seq<Extractor>, pages: seq<Option<Page>>): (r: seq<Option<ShopRecord>>)
    requires |es| == |pages|
    ensures |r| == |es|
    ensures forall i :: 0 <= i < |es| ==> r[i] == Scrape(es[i], pages[i])
  {
    if es == [] then []
    else Gather(es[..|es| - 1], pages[..|pages| - 1]) + [Scrape(es[|es| - 1], pages[|pages| - 1])]
  }

  /** The value `get_all_shops_data` returns. */
  function AllShops(pages: seq<Option<Page>>): seq<ShopRecord>
    requires |pages| == |Registry|
  {
    Successes(Gather(Registry, pages))
  }

  /**
   * The aggregate holds exactly the records the extractors produced: at most
   * five, each under one of the five registered names.
   */
  lemma AllShopsExactly(pages: seq<Option<Page>>)
    requires |pages| == |Registry|
    ensures |AllShops(pages)| <= |Registry|
    ensures forall x :: x in AllShops(pages) <==> exists i :: 0 <= i < |Registry| && Scrape(Registry[i], pages[i]) == Some(x)
    ensures forall x :: x in AllShops(pages) ==> Rank(x.shop) < |Registry|
  {
    var o := Gather(Registry, pages);
    forall x | x in AllShops(pages)
      ensures Rank(x.shop) < |Registry|
    {
      var i :| 0 <= i < |o| && o[i] == Some(x);
      assert x.shop == Registry[i].name;
    }
  }

  /** Successes keep the order of their outcomes: ranks rising along the outcomes rise along the successes. */
  lemma {:induction false} SuccessesSorted(rs: seq<Option<ShopRecord>>)
    requires forall i, j :: 0 <= i < j < |rs| && rs[i].Some? && rs[j].Some? ==> Rank(rs[i].value.shop) < Rank(rs[j].value.shop)
    ensures forall i, j :: 0 <= i < j < |Successes(rs)| ==> Rank(Successes(rs)[i].shop) < Rank(Successes(rs)[j].shop)
    decreases |rs|
  {
    if rs != [] {
      var init, last := rs[..|rs| - 1], rs[|rs| - 1];
      SuccessesSorted(init);
      var head := Successes(init);
      if last.Some? {
        forall i | 0 <= i < |head|
          ensures Rank(head[i].shop) < Rank(last.value.shop)
        {
          assert head[i] in head;
          var k :| 0 <= k < |init| && init[k] == Some(head[i]);
          assert rs[k] == init[k];
        }
        var r := Successes(rs);
        assert r == head + [last.value];
        forall i, j | 0 <= i < j < |r|
          ensures Rank(r[i].shop) < Rank(r[j].shop)
        {
          if j < |head| {
            assert r[i] == head[i] && r[j] == head[j];
          } else {
            assert r[i] == head[i] && r[j] == last.value;
          }
        }
      }
    }
  }

  /** The aggregate lists the shops in registration order, so no shop appears twice. */
  lemma AllShopsOrdered(pages: seq<Option<Page>>)
    requires |pages| == |Registry|
    ensures var r := AllShops(pages);
      forall i, j :: 0 <= i < j < |r| ==> Rank(r[i].shop) < Rank(r[j].shop) && r[i].shop != r[j].shop
  {
    var o := Gather(Registry, pages);
    RegistryRanks();
    forall i, j | 0 <= i < j < |o| && o[i].Some? && o[j].Some?
      ensures Rank(o[i].value.shop) < Rank(o[j].value.shop)
    {
      assert Rank(o[i].value.shop) == i && Rank(o[j].value.shop) == j;
    }
    SuccessesSorted(o);
  }

  /**
   * Where every task closes only its own page, a failing extractor costs only
   * its own record: with shop `k`'s page failing, the aggregate loses shop
   * `k`'s record and keeps every other shop's record.
   */
  lemma SiblingIsolation(pages: seq<Option<Page>>, k: nat)
    requires |pages| == |Registry| && k < |Registry|
    ensures forall x :: x in AllShops(pages[k := None]) <==> x in AllShops(pages) && x.shop != Registry[k].name
  {
    var o, o' := Gather(Registry, pages), Gather(Registry, pages[k := None]);
    GatherWithout(Registry, pages, k);
    RegistryRanks();
    forall x: ShopRecord
      ensures Some(x) in o' <==> Some(x) in o && x.shop != Registry[k].name
    {
      if Some(x) in o {
        var j :| 0 <= j < |o| && o[j] == Some(x);
        assert x.shop == Registry[j].name;
        if j != k {
          assert o'[j] == Some(x);
        }
      }
    }
  }

  /** The five registered names are told apart by their ranks. */
  lemma RegistryRanks()
    ensures forall j :: 0 <= j < |Registry| ==> Rank(Registry[j].name) == j
  {
  }

  /** Where the tasks share nothing, a failed page turns only its own task's outcome into None. */
  lemma GatherWithout(es: seq<Extractor>, pages: seq<Option<Page>>, k: nat)
    requires |es| == |pages| && k < |es|
    ensures Gather(es, pages[k := None]) == Gather(es, pages)[k := None]
  {
  }

  /** The filter keeps one record per outcome when every outcome is a record. */
  lemma {:induction false} SuccessesAllSome(rs: seq<Option<ShopRecord>>)
    requires forall i :: 0 <= i < |rs| ==> rs[i].Some?
    ensures |Successes(rs)| == |rs|
    decreases |rs|
  {
    if rs != [] {
      SuccessesAllSome(rs[..|rs| - 1]);
    }
  }

  /** The filter keeps at most one record when all outcomes but the one at `k` are None. */
  lemma {:induction false} SuccessesOfOne(rs: seq<Option<ShopRecord>>, k: nat)
    requires forall i :: 0 <= i < |rs| && i != k ==> rs[i].None?
    ensures |Successes(rs)| <= if k < |rs| then 1 else 0
    decreases |rs|
  {
    if rs != [] {
      SuccessesOfOne(rs[..|rs| - 1], k);
    }
  }

  /**
   * The pages as the tasks see them when task `first` is the first to finish:
   * its `safe_scrape` closes the shared context (line 16), and every other
   * task's next call on that context or on a page of it raises, as if its
   * page had not loaded.
   */
  function SharedContextPages(pages: seq<Option<Page>>, first: nat): seq<Option<Page>> {
    seq(|pages|, i requires 0 <= i < |pages| => if i == first then pages[i] else None)
  }

  /**
   * With the shared context closed by the first task to finish, the aggregate
   * holds at most one record: the first finisher's, when its extractor succeeded.
   */
  lemma SharedContextKeepsOnlyFirst(pages: seq<Option<Page>>, first: nat)
    requires |pages| == |Registry| && first < |Registry|
    ensures |AllShops(SharedContextPages(pages, first))| <= 1
    ensures forall x :: x in AllShops(SharedContextPages(pages, first)) <==> Scrape(Registry[first], pages[first]) == Some(x)
  {
    var o := Gather(Registry, SharedContextPages(pages, first));
    SuccessesOfOne(o, first);
    forall x: ShopRecord
      ensures Some(x) in o <==> Scrape(Registry[first], pages[first]) == Some(x)
    {
      if Some(x) in o {
        var j :| 0 <= j < |o| && o[j] == Some(x);
        assert j == first;
      } else {
        assert o[first] == Scrape(Registry[first], pages[first]);
      }
    }
  }

  /** A page on which every selector of `e` finds a visible element. */
  function LivePage(e: Extractor): Page {
    map[e.ready := Element("0", true)][e.buy := Element("0", true)][e.sell := Element("0", true)]
  }

  /** On its live page an extractor succeeds. */
  lemma LivePageScrapes(e: Extractor)
    ensures Scrape(e, Some(LivePage(e))).Some?
  {
    var page := LivePage(e);
    assert page[e.ready].visible && e.buy in page && e.sell in page;
  }

  /** Every shop's page loaded, with all its selectors visible. */
  const LivePages: seq<Option<Page>> := seq(|Registry|, i requires 0 <= i < |Registry| => Some(LivePage(Registry[i])))

  /**
   * Five pages on which every extractor succeeds: with independent tasks all
   * five records are served, but with the shared context closed by the first
   * task to finish exactly one is, whichever task that is.
   */
  lemma SharedContextLosesShops()
    ensures |AllShops(LivePages)| == |Registry|
    ensures forall first: nat :: first < |Registry| ==> |AllShops(SharedContextPages(LivePages, first))| == 1
  {
    var o := Gather(Registry, LivePages);
    forall i | 0 <= i < |o|
      ensures o[i].Some?
    {
      LivePageScrapes(Registry[i]);
    }
    SuccessesAllSome(o);
    forall first: nat | first < |Registry|
      ensures |AllShops(SharedContextPages(LivePages, first))| == 1
    {
      SharedContextKeepsOnlyFirst(LivePages, first);
      assert o[first].Some?;
      assert o[first].value in AllShops(SharedContextPages(LivePages, first));
    }
  }

  /**
   * The order in which the five gathered tasks finish (line 112), decided by
   * the network: every task position once.
   */
  predicate IsFinishOrder(order: seq<nat>) {
    && |order| == |Registry|
    && (forall a :: 0 <= a < |order| ==> order[a] < |Registry|)
    && (forall i :: 0 <= i < |Registry| ==> i in order)
    && (forall a, b :: 0 <= a < b < |order| ==> order[a] != order[b])
  }

  /** A Playwright browsing context or page: whether it was closed, and how many times `close()` was called on it. */
  class BrowserHandle {
    var closed: bool
    var closeCalls: nat

    constructor ()
      ensures !closed && closeCalls == 0
    {
      closed := false;
      closeCalls := 0;
    }

    /** Closing an already-closed handle does nothing more and does not raise. */
    method Close()
      modifies this
      ensures closed && closeCalls == old(closeCalls) + 1
    {
      closed := true;
      closeCalls := closeCalls + 1;
    }
  }

  /**
   * `safe_scrape` (lines 8-16) running extractor `e`, which opens its page
   * from `context`: its record, or None where it raised (always so once
   * `context` is closed); on both paths the `finally` clause closes `handle`.
   */
  method SafeScrape(e: Extractor, context: BrowserHandle, handle: BrowserHandle, loaded: Option<Page>) returns (r: Option<ShopRecord>)
    modifies handle
    ensures r == if old(context.closed) then None else Scrape(e, loaded)
    ensures handle.closed && handle.closeCalls == old(handle.closeCalls) + 1
  {
    if context.closed {
      r := None;
    } else {
      r := Scrape(e, loaded);
    }
    handle.Close();
  }

  /**
   * `get_all_shops_data` (lines 99-117) as written, its tasks run in the order
   * they finish. At lines 104-108 the handle given to `safe_scrape` is the
   * shared context, so the first task to finish closes it and every later one
   * fails; the context receives six `close()` calls in all, the last at line 114.
   */
  method GetAllShopsData(pages: seq<Option<Page>>, order: seq<nat>) returns (shops: seq<ShopRecord>, context: BrowserHandle)
    requires |pages| == |Registry| && IsFinishOrder(order)
    ensures fresh(context)
    ensures context.closed && context.closeCalls == |Registry| + 1
    ensures shops == AllShops(SharedContextPages(pages, order[0]))
  {
    context := new BrowserHandle();
    var first := order[0];
    var results: seq<Option<ShopRecord>> := [None, None, None, None, None];
    for j := 0 to |order|
      invariant |results| == |Registry|
      invariant context.closed <==> j > 0
      invariant context.closeCalls == j
      invariant forall m :: 0 <= m < |Registry| ==>
        results[m] == if j > 0 && m == first then Scrape(Registry[m], pages[m]) else None
    {
      var i := order[j];
      assert i in order;
      var r := SafeScrape(Registry[i], context, context, pages[i]);
      results := results[i := r];
    }
    context.Close();
    var o := Gather(Registry, SharedContextPages(pages, first));
    assert forall m :: 0 <= m < |Registry| ==> results[m] == o[m];
    assert results == o;
    shops := Successes(results);
  }

  /**
   * The corrected fan-out: each `safe_scrape` closes the page its task opened,
   * and only line 114 closes the context. Whatever order the tasks finish in,
   * the result is every extractor's own outcome, filtered.
   */
  method GetAllShopsDataOwnPages(pages: seq<Option<Page>>, order: seq<nat>) returns (shops: seq<ShopRecord>, context: BrowserHandle)
    requires |pages| == |Registry| && IsFinishOrder(order)
    ensures fresh(context)
    ensures context.closed && context.closeCalls == 1
    ensures shops == AllShops(pages)
  {
    context := new BrowserHandle();
    var results: seq<Option<ShopRecord>> := [None, None, None, None, None];
    for j := 0 to |order|
      invariant |results| == |Registry|
      invariant !context.closed && context.closeCalls == 0
      invariant forall m :: 0 <= m < |Registry| ==>
        results[m] == if m in order[..j] then Scrape(Registry[m], pages[m]) else None
    {
      var i := order[j];
      assert i in order;
      assert order[..j + 1] == order[..j] + [i];
      var page := new BrowserHandle();
      var r := SafeScrape(Registry[i], context, page, pages[i]);
      results := results[i := r];
    }
    context.Close();
    assert order[..|order|] == order;
    var o := Gather(Registry, pages);
    assert forall m :: 0 <= m < |Registry| ==> results[m] == o[m];
    assert results == o;
    shops := Successes(results);
  }
}
