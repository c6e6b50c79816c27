/**
 * Quote normalisation: the arithmetic of `get_asset_price` (tracker.py:143-222).
 * The provider's answer is a parameter: the (open, close) samples it returned for
 * the asset, and the GBP/USD rate the cycle fetched (if any).
 */
module Normalizer {
  import opened Wrappers

  datatype Currency = USD | GBP

  /** One configured instrument (an entry of ASSETS, tracker.py:34-56). */
  datatype Asset = Asset(key: string, ticker: string, native: Currency)

  /** One daily sample returned by the price provider; samples run oldest first. */
  datatype Sample = Sample(open: real, close: real)

  /**
   * What the provider returned for one asset in one cycle. An empty `samples`
   * stands for "no data", and also for a fetch that raised: both end in None.
   */
  datatype Quote = Quote(asset: Asset, samples: seq<Sample>)

  /** Current, open and previous-close values in the market's own units. */
  datatype RawQuote = RawQuote(current: real, open: real, prevClose: real)

  /** The record `get_asset_price` returns; the USD fields may be absent. */
  datatype Prices = Prices(
    priceGbp: real, openGbp: real, prevCloseGbp: real,
    priceUsd: Option<real>, openUsd: Option<real>, prevCloseUsd: Option<real>)

  const PENCE_THRESHOLD: real := 100.0

  /** The tracked instruments, in their configured order. */
  const ASSETS: seq<Asset> := [
    Asset("gold_gbp", "GC=F", USD),
    Asset("iswd", "ISWD.L", GBP),
    Asset("hbks", "HBKS.L", GBP)
  ]

  /** `ticker.endswith(".L")`: a London Stock Exchange ticker. */
  predicate IsLseTicker(ticker: string)
    ensures IsLseTicker(ticker) <==> exists prefix :: ticker == prefix + ".L"
  {
    if |ticker| >= 2 && ticker[|ticker| - 2..] == ".L" then
      assert ticker == ticker[..|ticker| - 2] + ".L";
      true
    else
      false
  }

  /**
   * The last sample's close and open; the previous close is the close of the
   * sample before it, or the open when there is only one (tracker.py:160-171).
   */
  function RawQuoteOf(samples: seq<Sample>): (r: Option<RawQuote>)
    ensures r.None? <==> samples == []
    ensures r.Some? ==> r.value.current == samples[|samples| - 1].close && r.value.open == samples[|samples| - 1].open
    ensures r.Some? && |samples| >= 2 ==> r.value.prevClose == samples[|samples| - 2].close
    ensures r.Some? && |samples| == 1 ==> r.value.prevClose == samples[0].open
  {
    if samples == [] then None
    else
      var last := samples[|samples| - 1];
      var prevClose := if |samples| > 1 then samples[|samples| - 2].close else last.open;
      Some(RawQuote(last.close, last.open, prevClose))
  }

  /**
   * Pence detection (tracker.py:175-179): an LSE value above the threshold is
   * taken to be in pence, and all three values are brought to pounds together.
   */
  function PenceAdjusted(q: RawQuote, lse: bool): (r: RawQuote)
    ensures lse && q.current > PENCE_THRESHOLD ==>
      r.current * 100.0 == q.current && r.open * 100.0 == q.open && r.prevClose * 100.0 == q.prevClose
    ensures !(lse && q.current > PENCE_THRESHOLD) ==> r == q
  {
    if lse && q.current > PENCE_THRESHOLD then
      RawQuote(q.current / 100.0, q.open / 100.0, q.prevClose / 100.0)
    else
      q
  }

  /** The three GBP fields. */
  function GbpFields(p: Prices): RawQuote {
    RawQuote(p.priceGbp, p.openGbp, p.prevCloseGbp)
  }

  /** The three USD fields, when all are present. */
  function UsdFields(p: Prices): Option<RawQuote> {
    if p.priceUsd.Some? && p.openUsd.Some? && p.prevCloseUsd.Some? then
      Some(RawQuote(p.priceUsd.value, p.openUsd.value, p.prevCloseUsd.value))
    else
      None
  }

  /** The fields expressed in `native`, the currency the market quoted. */
  function NativeFields(p: Prices, native: Currency): Option<RawQuote> {
    match native
    case USD => UsdFields(p)
    case GBP => Some(GbpFields(p))
  }

  /** Every USD field is present and is the GBP field times `rate`. */
  predicate ConvertedAt(p: Prices, rate: real) {
    && p.priceUsd.Some? && p.priceUsd.value == p.priceGbp * rate
    && p.openUsd.Some? && p.openUsd.value == p.openGbp * rate
    && p.prevCloseUsd.Some? && p.prevCloseUsd.value == p.prevCloseGbp * rate
  }

  /** Every USD field is absent. */
  predicate WithoutUsd(p: Prices) {
    p.priceUsd.None? && p.openUsd.None? && p.prevCloseUsd.None?
  }

  /** The USD-native branch (tracker.py:182-194): GBP is USD divided by the rate. */
  function FromUsd(adj: RawQuote, x: real): (p: Prices)
    requires x != 0.0
    ensures UsdFields(p) == Some(adj)
    ensures ConvertedAt(p, x)
  {
    DivideThenMultiply(adj.current, x);
    DivideThenMultiply(adj.open, x);
    DivideThenMultiply(adj.prevClose, x);
    Prices(adj.current / x, adj.open / x, adj.prevClose / x,
           Some(adj.current), Some(adj.open), Some(adj.prevClose))
  }

  /** The GBP-native branch (tracker.py:196-209): USD is GBP times the rate, if there is one. */
  function FromGbp(adj: RawQuote, rate: Option<real>): (p: Prices)
    ensures GbpFields(p) == adj
    ensures rate.Some? ==> ConvertedAt(p, rate.value)
    ensures rate.None? ==> WithoutUsd(p)
  {
    match rate
    case Some(x) =>
      Prices(adj.current, adj.open, adj.prevClose,
             Some(adj.current * x), Some(adj.open * x), Some(adj.prevClose * x))
    case None =>
      Prices(adj.current, adj.open, adj.prevClose, None, None, None)
  }

  /**
   * Normalisation of one raw quote (tracker.py:173-218). A USD-native asset
   * fails without a rate, and with a zero rate, whose division raises inside
   * the `try` (tracker.py:192, 220-222). A GBP-native asset always succeeds;
   * its USD fields are absent when there is no rate.
   */
  function Normalize(q: RawQuote, lse: bool, native: Currency, rate: Option<real>): (r: Option<Prices>)
    ensures r.None? <==> native == USD && (rate.None? || rate.value == 0.0)
    ensures r.Some? ==> NativeFields(r.value, native) == Some(PenceAdjusted(q, lse))
    ensures r.Some? && rate.Some? ==> ConvertedAt(r.value, rate.value)
    ensures r.Some? && rate.None? ==> WithoutUsd(r.value)
  {
    var adj := PenceAdjusted(q, lse);
    match native
    case USD =>
      if rate.None? || rate.value == 0.0 then None else Some(FromUsd(adj, rate.value))
    case GBP =>
      Some(FromGbp(adj, rate))
  }

  /**
   * `get_asset_price` without the network: None when the provider had no data
   * or when normalisation fails; the caller then skips the asset.
   */
  function AssetPrice(asset: Asset, samples: seq<Sample>, rate: Option<real>): (r: Option<Prices>)
    ensures r.None? <==> samples == [] || (asset.native == USD && (rate.None? || rate.value == 0.0))
  {
    match RawQuoteOf(samples)
    case None => None
    case Some(q) => Normalize(q, IsLseTicker(asset.ticker), asset.native, rate)
  }

  /**
   * With data, the price is the normalisation of the last sample's close and
   * open and of the previous close: the close of the sample before, or the
   * last open when there is only one sample (tracker.py:164-171).
   */
  lemma AssetPriceOfSamples(asset: Asset, samples: seq<Sample>, rate: Option<real>)
    requires samples != []
    ensures var last := samples[|samples| - 1];
            var prevClose := if |samples| >= 2 then samples[|samples| - 2].close else last.open;
            AssetPrice(asset, samples, rate) == Normalize(RawQuote(last.close, last.open, prevClose), IsLseTicker(asset.ticker), asset.native, rate)
  {
    var last := samples[|samples| - 1];
    var prevClose := if |samples| >= 2 then samples[|samples| - 2].close else last.open;
    assert RawQuoteOf(samples) == Some(RawQuote(last.close, last.open, prevClose));
  }

  lemma DivideThenMultiply(v: real, x: real)
    requires x != 0.0
    ensures v / x * x == v
  {
  }

  /** A GBP asset quoted at 650 pence with a rate of 1.25 is £6.50 and $8.125. */
  lemma PenceExample(open: real, prevClose: real)
    ensures var r := Normalize(RawQuote(650.0, open, prevClose), true, GBP, Some(1.25));
            r.Some? && r.value.priceGbp == 6.5 && r.value.priceUsd == Some(8.125)
  {
  }
}
