/**
 * `cmd_summary` (tracker.py:333-427) without its I/O: one row per asset,
 * built from the live quote and the history as loaded, then today's GBP
 * prices recorded into the history, which is trimmed and saved.
 */
module DailySummary {
  import opened Wrappers
  import opened DateOrder
  import opened PriceChange
  import opened Normalizer
  import opened HistoryStore
  import opened TrendCalculator

  /** What the summary message says about one asset. */
  datatype SummaryRow =
    | Unavailable(asset: string)
    | Available(
        asset: string,
        priceGbp: real,
        priceUsd: Option<real>,
        prevCloseGbp: real,
        dailyChange: real,
        dailyChangePct: real,
        weekly: Option<real>,
        monthly: Option<real>)

  /**
   * The row of one asset (tracker.py:353-403): unavailable when it has no
   * price; otherwise its prices, the change since the previous close, and
   * the 5- and 22-recording trends over the history as loaded.
   */
  function RowOf(q: Quote, rate: Option<real>, history: seq<HistoryEntry>): (row: SummaryRow)
    ensures row.asset == q.asset.key
    ensures row.Unavailable? <==> AssetPrice(q.asset, q.samples, rate).None?
    ensures row.Available? ==> row.dailyChange == row.priceGbp - row.prevCloseGbp
    ensures row.Available? && row.prevCloseGbp == 0.0 ==> row.dailyChangePct == 0.0
    ensures row.Available? && row.prevCloseGbp != 0.0 ==>
      row.prevCloseGbp + row.prevCloseGbp * row.dailyChangePct / 100.0 == row.priceGbp
    ensures row.Available? ==>
      var p := AssetPrice(q.asset, q.samples, rate).value;
      row.priceGbp == p.priceGbp && row.priceUsd == p.priceUsd && row.prevCloseGbp == p.prevCloseGbp
    ensures row.Available? ==>
      row.weekly == Trend(history, q.asset.key, WEEK_DAYS) && row.monthly == Trend(history, q.asset.key, MONTH_DAYS)
    ensures row.Available? && |Points(history, q.asset.key)| < 2 ==> row.weekly.None? && row.monthly.None?
  {
    match AssetPrice(q.asset, q.samples, rate)
    case None => Unavailable(q.asset.key)
    case Some(p) =>
      Available(q.asset.key, p.priceGbp, p.priceUsd, p.prevCloseGbp,
                p.priceGbp - p.prevCloseGbp, DailyChangePct(p.priceGbp, p.prevCloseGbp),
                Trend(history, q.asset.key, WEEK_DAYS), Trend(history, q.asset.key, MONTH_DAYS))
  }

  /** The GBP price of one quote, when it has a price at all. */
  function GbpPrice(q: Quote, rate: Option<real>): (r: Option<real>)
    ensures r.Some? <==> AssetPrice(q.asset, q.samples, rate).Some?
    ensures r.Some? ==> r.value == AssetPrice(q.asset, q.samples, rate).value.priceGbp
  {
    match AssetPrice(q.asset, q.samples, rate)
    case None => None
    case Some(p) => Some(p.priceGbp)
  }

  /** The assets in order, each with its GBP price if it has one. */
  function Priced(quotes: seq<Quote>, rate: Option<real>): (r: seq<(string, Option<real>)>)
    ensures |r| == |quotes|
    ensures forall i :: 0 <= i < |quotes| ==> r[i] == (quotes[i].asset.key, GbpPrice(quotes[i], rate))
  {
    seq(|quotes|, i requires 0 <= i < |quotes| => (quotes[i].asset.key, GbpPrice(quotes[i], rate)))
  }

  /**
   * Filling a dictionary from the priced assets in order (tracker.py:364):
   * assets without a price are skipped, and a later key overwrites an
   * earlier one.
   */
  function Collect(priced: seq<(string, Option<real>)>): (m: map<string, real>)
    ensures forall key :: key in m <==> exists i :: 0 <= i < |priced| && priced[i].0 == key && priced[i].1.Some?
  {
    if priced == [] then map[]
    else
      var n := |priced| - 1;
      var earlier := Collect(priced[..n]);
      if priced[n].1.Some? then earlier[priced[n].0 := priced[n].1.value] else earlier
  }

  lemma CollectNext(priced: seq<(string, Option<real>)>, i: nat)
    requires i < |priced|
    ensures Collect(priced[..i + 1]) ==
      if priced[i].1.Some? then Collect(priced[..i])[priced[i].0 := priced[i].1.value] else Collect(priced[..i])
  {
    assert priced[..i + 1][..i] == priced[..i];
  }

  /** A key holds the price of its last priced occurrence. */
  lemma {:induction false} CollectValue(priced: seq<(string, Option<real>)>, i: nat)
    requires i < |priced| && priced[i].1.Some?
    requires forall j :: i < j < |priced| && priced[j].0 == priced[i].0 ==> priced[j].1.None?
    ensures priced[i].0 in Collect(priced)
    ensures Collect(priced)[priced[i].0] == priced[i].1.value
    decreases |priced|
  {
    var n := |priced| - 1;
    var prefix := priced[..n];
    var key := priced[i].0;
    if i < n {
      assert prefix[i] == priced[i];
      forall j | i < j < |prefix| && prefix[j].0 == key
        ensures prefix[j].1.None?
      {
        assert prefix[j] == priced[j];
      }
      CollectValue(prefix, i);
      assert priced[n].0 != key || priced[n].1.None?;
    }
  }

  /** The `prices` dictionary the summary fills: the GBP price of every asset that has one. */
  function TodaysPrices(quotes: seq<Quote>, rate: Option<real>): (m: map<string, real>)
    ensures forall key :: key in m <==>
      exists i :: 0 <= i < |quotes| && quotes[i].asset.key == key && AssetPrice(quotes[i].asset, quotes[i].samples, rate).Some?
  {
    var priced := Priced(quotes, rate);
    assert forall i :: 0 <= i < |quotes| ==> priced[i] == (quotes[i].asset.key, GbpPrice(quotes[i], rate));
    Collect(priced)
  }

  /** Each asset with a price maps to its GBP price; a later quote for the same key overwrites an earlier one. */
  lemma TodaysPricesValue(quotes: seq<Quote>, rate: Option<real>, i: nat)
    requires i < |quotes| && AssetPrice(quotes[i].asset, quotes[i].samples, rate).Some?
    requires forall j :: i < j < |quotes| && quotes[j].asset.key == quotes[i].asset.key ==>
      AssetPrice(quotes[j].asset, quotes[j].samples, rate).None?
    ensures quotes[i].asset.key in TodaysPrices(quotes, rate)
    ensures TodaysPrices(quotes, rate)[quotes[i].asset.key] == AssetPrice(quotes[i].asset, quotes[i].samples, rate).value.priceGbp
  {
    var priced := Priced(quotes, rate);
    forall j | i < j < |priced| && priced[j].0 == priced[i].0
      ensures priced[j].1.None?
    {
    }
    CollectValue(priced, i);
  }

  /** The history after a summary run: unchanged when no asset had a price. */
  function AfterSummary(entries: seq<HistoryEntry>, prices: map<string, real>, rate: Option<real>, today: string, cutoff: string): (r: seq<HistoryEntry>)
    ensures prices == map[] ==> r == entries
    ensures prices != map[] ==> forall e :: e in r <==>
      LessEq(cutoff, e.date) && (e == HistoryEntry(today, Stored(prices), rate) || (e in entries && e.date != today))
  {
    if prices == map[] then entries
    else Retained(Replaced(entries, HistoryEntry(today, Stored(prices), rate)), cutoff)
  }

  /**
   * A run keeps the history keyed by date, and when some asset had a price
   * and the cutoff does not lie after today, leaves today's entry as the only
   * one of its date.
   */
  lemma AfterSummaryKeyed(entries: seq<HistoryEntry>, prices: map<string, real>, rate: Option<real>, today: string, cutoff: string)
    requires UniqueDates(entries)
    ensures UniqueDates(AfterSummary(entries, prices, rate, today, cutoff))
    ensures prices != map[] && LessEq(cutoff, today) ==>
      EntriesOn(AfterSummary(entries, prices, rate, today, cutoff), today) == [HistoryEntry(today, Stored(prices), rate)]
  {
    if prices != map[] {
      var e := HistoryEntry(today, Stored(prices), rate);
      ReplacedUnique(entries, e);
      RetainedUnique(Replaced(entries, e), cutoff);
      if LessEq(cutoff, today) {
        SavedToday(entries, e, cutoff);
      }
    }
  }

  /** Running the summary twice on one day with the same quotes leaves the history of the first run. */
  lemma AfterSummaryTwice(entries: seq<HistoryEntry>, prices: map<string, real>, rate: Option<real>, today: string, cutoff: string)
    requires LessEq(cutoff, today)
    ensures var once := AfterSummary(entries, prices, rate, today, cutoff);
            AfterSummary(once, prices, rate, today, cutoff) == once
  {
    if prices != map[] {
      RecordAndSaveTwice(entries, HistoryEntry(today, Stored(prices), rate), cutoff);
    }
  }

  /** The row and the GBP price of one asset, computed as the summary loop does (tracker.py:353-368, 393-394). */
  method SummarizeQuote(q: Quote, rate: Option<real>, entries: seq<HistoryEntry>) returns (row: SummaryRow, price: Option<real>)
    ensures row == RowOf(q, rate, entries)
    ensures price == GbpPrice(q, rate)
  {
    var key := q.asset.key;
    var priceData := AssetPrice(q.asset, q.samples, rate);
    if priceData.None? {
      return Unavailable(key), None;
    }
    var current := priceData.value.priceGbp;
    var prevClose := priceData.value.prevCloseGbp;
    var dailyChange := current - prevClose;
    var dailyChangePct := if prevClose != 0.0 then dailyChange / prevClose * 100.0 else 0.0;
    var weekly := Trend(entries, key, WEEK_DAYS);
    var monthly := Trend(entries, key, MONTH_DAYS);
    row := Available(key, current, priceData.value.priceUsd, prevClose, dailyChange, dailyChangePct, weekly, monthly);
    price := Some(current);
  }

  /**
   * One run of the daily summary against the history `h`: returns the rows
   * of the message in asset order, records today's prices and saves. The
   * trends are computed on the history as loaded, before today is recorded.
   */
  method Summary(h: History, quotes: seq<Quote>, rate: Option<real>, today: string, cutoff: string) returns (rows: seq<SummaryRow>)
    modifies h
    ensures |rows| == |quotes|
    ensures forall k :: 0 <= k < |quotes| ==> rows[k] == RowOf(quotes[k], rate, old(h.entries))
    ensures h.entries == AfterSummary(old(h.entries), TodaysPrices(quotes, rate), rate, today, cutoff)
  {
    ghost var priced := Priced(quotes, rate);
    var prices: map<string, real> := map[];
    rows := [];
    var i := 0;
    while i < |quotes|
      invariant 0 <= i <= |quotes|
      invariant h.entries == old(h.entries)
      invariant |rows| == i
      invariant forall k :: 0 <= k < i ==> rows[k] == RowOf(quotes[k], rate, h.entries)
      invariant prices == Collect(priced[..i])
    {
      var row, price := SummarizeQuote(quotes[i], rate, h.entries);
      rows := rows + [row];
      CollectNext(priced, i);
      if price.Some? {
        prices := prices[quotes[i].asset.key := price.value];
      }
      i := i + 1;
    }
    assert priced[..|quotes|] == priced;
    if prices != map[] {
      h.RecordToday(today, prices, rate);
      h.Save(cutoff);
    }
  }
}
