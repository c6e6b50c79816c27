/**
 * The intraday alert state machine of `cmd_watch` (tracker.py:428-510): the
 * day-scoped list of alert keys already fired, reset on the first load of a new
 * day (tracker.py:281-294), extended by each evaluation cycle with the keys
 * whose condition holds and that have not fired yet (tracker.py:447-498), and
 * stamped with today's date when saved (tracker.py:297-305, 501).
 */
module AlertStateMachine {
  import opened Wrappers
  import opened PriceChange
  import opened Normalizer

  /**
   * The deduplication unit. The source keys alerts by the strings that
   * KeyString builds; KeyStringInjective shows no two keys share a string.
   */
  datatype AlertKey =
    | Intraday(asset: string, positive: bool)
    | Above(asset: string)
    | Below(asset: string)

  /**
   * The key strings of tracker.py:462, 480 and 491: a tag, then the asset,
   * then for an intraday key the direction.
   */
  function KeyString(k: AlertKey): (s: string)
    ensures k.Intraday? ==> |s| == |k.asset| + 11 && s[..9] == "intraday_" && s[9..9 + |k.asset|] == k.asset
    ensures k.Intraday? ==> s[|k.asset| + 10] == if k.positive then '+' else '-'
    ensures !k.Intraday? ==> |s| == |k.asset| + 12
    ensures k.Above? ==> s[..12] == "price_above_" && s[12..] == k.asset
    ensures k.Below? ==> s[..12] == "price_below_" && s[12..] == k.asset
    ensures s[0] == if k.Intraday? then 'i' else 'p'
    ensures !k.Intraday? ==> s[6] == if k.Above? then 'a' else 'b'
  {
    match k
    case Intraday(a, positive) => "intraday_" + a + "_" + (if positive then "+" else "-")
    case Above(a) => "price_above_" + a
    case Below(a) => "price_below_" + a
  }

  /** Distinct keys have distinct strings, so the datatype loses nothing. */
  lemma KeyStringInjective(k1: AlertKey, k2: AlertKey)
    requires KeyString(k1) == KeyString(k2)
    ensures k1 == k2
  {
    var s1, s2 := KeyString(k1), KeyString(k2);
    if k1.Intraday? && k2.Intraday? {
      assert k1.asset == s1[9..9 + |k1.asset|] == s2[9..9 + |k2.asset|] == k2.asset;
    }
  }

  /** The absolute price limits configured for one asset. */
  datatype Limits = Limits(above: Option<real>, below: Option<real>)

  /**
   * The alert part of the configuration: `intraday_alerts.default_threshold_pct`
   * (None when absent), `intraday_alerts.thresholds` and `price_alerts`.
   */
  datatype AlertConfig = AlertConfig(
    defaultThreshold: Option<real>,
    thresholds: map<string, real>,
    priceAlerts: map<string, Limits>)

  const DEFAULT_THRESHOLD_PCT: real := 2.0

  /** The per-asset override, else the configured default, else 2.0 (tracker.py:443, 457). */
  function Threshold(cfg: AlertConfig, key: string): (t: real)
    ensures key in cfg.thresholds ==> t == cfg.thresholds[key]
    ensures key !in cfg.thresholds && cfg.defaultThreshold.Some? ==> t == cfg.defaultThreshold.value
    ensures key !in cfg.thresholds && cfg.defaultThreshold.None? ==> t == DEFAULT_THRESHOLD_PCT
  {
    if key in cfg.thresholds then cfg.thresholds[key] else cfg.defaultThreshold.GetOr(DEFAULT_THRESHOLD_PCT)
  }

  /** The asset's entry of `price_alerts`; an asset without one has no limits (tracker.py:476). */
  function LimitsFor(cfg: AlertConfig, key: string): (l: Limits)
    ensures key in cfg.priceAlerts ==> l == cfg.priceAlerts[key]
    ensures key !in cfg.priceAlerts ==> l.above.None? && l.below.None?
  {
    if key in cfg.priceAlerts then cfg.priceAlerts[key] else Limits(None, None)
  }

  /**
   * The intraday move check (tracker.py:457-462): skipped when the open is
   * zero, otherwise fires when the move is at least the threshold either way.
   */
  function IntradayAlert(key: string, p: Prices, cfg: AlertConfig): (r: seq<AlertKey>)
    ensures |r| <= 1 && forall k :: k in r ==> k.Intraday? && k.asset == key
    ensures r != [] <==> p.openGbp != 0.0 && Abs((p.priceGbp - p.openGbp) / p.openGbp * 100.0) >= Threshold(cfg, key)
    ensures r != [] && p.openGbp > 0.0 ==> (r[0].positive <==> p.priceGbp > p.openGbp)
    ensures r != [] && p.openGbp < 0.0 ==> (r[0].positive <==> p.priceGbp < p.openGbp)
  {
    match PercentChange(p.priceGbp, p.openGbp)
    case None => []
    case Some(change) =>
      if Abs(change) >= Threshold(cfg, key) then [Intraday(key, change > 0.0)] else []
  }

  /** The inclusive "above" check (tracker.py:478-480). */
  function AboveAlert(key: string, p: Prices, cfg: AlertConfig): (r: seq<AlertKey>)
    ensures r == [] || r == [Above(key)]
    ensures r != [] <==> LimitsFor(cfg, key).above.Some? && p.priceGbp >= LimitsFor(cfg, key).above.value
  {
    var limit := LimitsFor(cfg, key).above;
    if limit.Some? && p.priceGbp >= limit.value then [Above(key)] else []
  }

  /** The inclusive "below" check (tracker.py:489-491). */
  function BelowAlert(key: string, p: Prices, cfg: AlertConfig): (r: seq<AlertKey>)
    ensures r == [] || r == [Below(key)]
    ensures r != [] <==> LimitsFor(cfg, key).below.Some? && p.priceGbp <= LimitsFor(cfg, key).below.value
  {
    var limit := LimitsFor(cfg, key).below;
    if limit.Some? && p.priceGbp <= limit.value then [Below(key)] else []
  }

  /** The keys whose condition holds for one asset, in evaluation order. */
  function Candidates(key: string, p: Prices, cfg: AlertConfig): (c: seq<AlertKey>)
    ensures NoDup(c)
    ensures forall k :: k in c ==> k.asset == key
    ensures forall k: AlertKey :: k.Intraday? ==> (k in c <==> k in IntradayAlert(key, p, cfg))
    ensures Above(key) in c <==> LimitsFor(cfg, key).above.Some? && p.priceGbp >= LimitsFor(cfg, key).above.value
    ensures Below(key) in c <==> LimitsFor(cfg, key).below.Some? && p.priceGbp <= LimitsFor(cfg, key).below.value
  {
    IntradayAlert(key, p, cfg) + AboveAlert(key, p, cfg) + BelowAlert(key, p, cfg)
  }

  /** The keys one asset's quote triggers; none when it has no price. */
  function AssetCandidates(q: Quote, rate: Option<real>, cfg: AlertConfig): (c: seq<AlertKey>)
    ensures c != [] ==> AssetPrice(q.asset, q.samples, rate).Some?
    ensures forall k :: k in c ==> k.asset == q.asset.key
  {
    match AssetPrice(q.asset, q.samples, rate)
    case None => []
    case Some(p) => Candidates(q.asset.key, p, cfg)
  }

  /** The keys triggered in one cycle, asset after asset. */
  function Triggered(quotes: seq<Quote>, rate: Option<real>, cfg: AlertConfig): (t: seq<AlertKey>)
    ensures forall k :: k in t ==>
      exists i :: 0 <= i < |quotes| && quotes[i].asset.key == k.asset && AssetPrice(quotes[i].asset, quotes[i].samples, rate).Some?
  {
    if quotes == [] then []
    else
      var n := |quotes| - 1;
      Triggered(quotes[..n], rate, cfg) + AssetCandidates(quotes[n], rate, cfg)
  }

  lemma TriggeredNext(quotes: seq<Quote>, i: nat, rate: Option<real>, cfg: AlertConfig)
    requires i < |quotes|
    ensures Triggered(quotes[..i + 1], rate, cfg) == Triggered(quotes[..i], rate, cfg) + AssetCandidates(quotes[i], rate, cfg)
  {
    assert quotes[..i + 1][..i] == quotes[..i];
  }

  /** The quote has a price, and under it `k` is one of its asset's candidate keys. */
  predicate Raises(q: Quote, rate: Option<real>, cfg: AlertConfig, k: AlertKey) {
    && AssetPrice(q.asset, q.samples, rate).Some?
    && k in Candidates(q.asset.key, AssetPrice(q.asset, q.samples, rate).value, cfg)
  }

  /** The quotes among the first `n` whose candidate keys include `k`. */
  predicate RaisedAmong(quotes: seq<Quote>, n: nat, rate: Option<real>, cfg: AlertConfig, k: AlertKey)
    requires n <= |quotes|
  {
    exists i :: 0 <= i < n && k in AssetCandidates(quotes[i], rate, cfg)
  }

  lemma {:induction false} TriggeredPrefix(quotes: seq<Quote>, n: nat, rate: Option<real>, cfg: AlertConfig, k: AlertKey)
    requires n <= |quotes|
    ensures k in Triggered(quotes[..n], rate, cfg) <==> RaisedAmong(quotes, n, rate, cfg, k)
  {
    if n > 0 {
      var m := n - 1;
      var here := AssetCandidates(quotes[m], rate, cfg);
      TriggeredPrefix(quotes, m, rate, cfg, k);
      TriggeredNext(quotes, m, rate, cfg);
      if k in here {
        assert 0 <= m < n && k in AssetCandidates(quotes[m], rate, cfg);
      }
      if RaisedAmong(quotes, m, rate, cfg, k) {
        var i :| 0 <= i < m && k in AssetCandidates(quotes[i], rate, cfg);
        assert 0 <= i < n;
      }
      if RaisedAmong(quotes, n, rate, cfg, k) && k !in here {
        var i :| 0 <= i < n && k in AssetCandidates(quotes[i], rate, cfg);
        assert i != m;
      }
    }
  }

  lemma TriggeredFrom(quotes: seq<Quote>, rate: Option<real>, cfg: AlertConfig, k: AlertKey)
    ensures k in Triggered(quotes, rate, cfg) <==> exists i :: 0 <= i < |quotes| && k in AssetCandidates(quotes[i], rate, cfg)
  {
    TriggeredPrefix(quotes, |quotes|, rate, cfg, k);
    assert quotes[..|quotes|] == quotes;
  }

  /** The keys of an asset with a price are exactly the ones its price raises. */
  lemma AssetCandidatesRaise(q: Quote, rate: Option<real>, cfg: AlertConfig, k: AlertKey)
    ensures k in AssetCandidates(q, rate, cfg) <==> Raises(q, rate, cfg, k)
  {
  }

  /** A key is triggered in a cycle exactly when some priced asset raises it. */
  lemma TriggeredMembers(quotes: seq<Quote>, rate: Option<real>, cfg: AlertConfig, k: AlertKey)
    ensures k in Triggered(quotes, rate, cfg) <==> exists i :: 0 <= i < |quotes| && Raises(quotes[i], rate, cfg, k)
  {
    TriggeredFrom(quotes, rate, cfg, k);
    forall i | 0 <= i < |quotes|
      ensures k in AssetCandidates(quotes[i], rate, cfg) <==> Raises(quotes[i], rate, cfg, k)
    {
      AssetCandidatesRaise(quotes[i], rate, cfg, k);
    }
  }

  /** A priced asset at or above its configured upper limit triggers its "above" key. */
  lemma AboveLimitTriggers(quotes: seq<Quote>, i: nat, rate: Option<real>, cfg: AlertConfig)
    requires i < |quotes| && AssetPrice(quotes[i].asset, quotes[i].samples, rate).Some?
    requires var limit := LimitsFor(cfg, quotes[i].asset.key).above;
      limit.Some? && AssetPrice(quotes[i].asset, quotes[i].samples, rate).value.priceGbp >= limit.value
    ensures Above(quotes[i].asset.key) in Triggered(quotes, rate, cfg)
  {
    TriggeredMembers(quotes, rate, cfg, Above(quotes[i].asset.key));
    assert Raises(quotes[i], rate, cfg, Above(quotes[i].asset.key));
  }

  predicate NoDup(s: seq<AlertKey>) {
    forall i, j :: 0 <= i < j < |s| ==> s[i] != s[j]
  }

  /** Fire one key: append it unless it already fired (tracker.py:464, 472). */
  function Step(fired: seq<AlertKey>, k: AlertKey): (r: seq<AlertKey>)
    ensures forall x :: x in r <==> x in fired || x == k
    ensures |r| == if k in fired then |fired| else |fired| + 1
  {
    if k in fired then fired else fired + [k]
  }

  /** Fire the triggered keys one after the other. */
  function Fire(fired: seq<AlertKey>, triggered: seq<AlertKey>): (r: seq<AlertKey>)
    ensures |fired| <= |r| <= |fired| + |triggered|
    decreases |triggered|
  {
    if triggered == [] then fired else Fire(Step(fired, triggered[0]), triggered[1..])
  }

  lemma {:induction false} FireAppend(fired: seq<AlertKey>, a: seq<AlertKey>, b: seq<AlertKey>)
    ensures Fire(fired, a + b) == Fire(Fire(fired, a), b)
    decreases |a|
  {
    if a == [] {
      assert a + b == b;
    } else {
      assert (a + b)[0] == a[0] && (a + b)[1..] == a[1..] + b;
      FireAppend(Step(fired, a[0]), a[1..], b);
    }
  }

  /** Firing only appends: nothing fired earlier is lost or reordered. */
  lemma {:induction false} FireExtends(fired: seq<AlertKey>, triggered: seq<AlertKey>)
    ensures Fire(fired, triggered)[..|fired|] == fired
    ensures Fire(fired, triggered) == fired + Fire(fired, triggered)[|fired|..]
    decreases |triggered|
  {
    if triggered != [] {
      var next := Step(fired, triggered[0]);
      FireExtends(next, triggered[1..]);
      assert next[..|fired|] == fired;
    }
    var r := Fire(fired, triggered);
    assert r == r[..|fired|] + r[|fired|..];
  }

  /** A key is fired afterwards exactly when it had fired before or was triggered now. */
  lemma {:induction false} FireMembers(fired: seq<AlertKey>, triggered: seq<AlertKey>, k: AlertKey)
    ensures k in Fire(fired, triggered) <==> k in fired || k in triggered
    decreases |triggered|
  {
    if triggered != [] {
      FireMembers(Step(fired, triggered[0]), triggered[1..], k);
      assert triggered == [triggered[0]] + triggered[1..];
    }
  }

  /** The fired list never gains a duplicate. */
  lemma {:induction false} FireNoDup(fired: seq<AlertKey>, triggered: seq<AlertKey>)
    requires NoDup(fired)
    ensures NoDup(Fire(fired, triggered))
    decreases |triggered|
  {
    if triggered != [] {
      FireNoDup(Step(fired, triggered[0]), triggered[1..]);
    }
  }

  /** Each newly fired key was triggered in this cycle and had not fired before. */
  lemma {:induction false} FireNewKeys(fired: seq<AlertKey>, triggered: seq<AlertKey>)
    ensures forall k :: k in Fire(fired, triggered)[|fired|..] ==> k in triggered && k !in fired
    decreases |triggered|
  {
    FireExtends(fired, triggered);
    if triggered != [] {
      var next := Step(fired, triggered[0]);
      FireNewKeys(next, triggered[1..]);
      FireExtends(next, triggered[1..]);
      var all := Fire(fired, triggered);
      forall k | k in all[|fired|..]
        ensures k in triggered && k !in fired
      {
        var i :| |fired| <= i < |all| && all[i] == k;
        if i < |next| {
          assert next == fired + [triggered[0]] && k == triggered[0];
        } else {
          assert k in all[|next|..];
          assert k in triggered[1..];
        }
      }
    }
  }

  /** Each triggered key that had not fired before is among the keys added. */
  lemma FireAddsNew(fired: seq<AlertKey>, triggered: seq<AlertKey>)
    ensures forall k :: k in triggered && k !in fired ==> k in Fire(fired, triggered)[|fired|..]
  {
    FireExtends(fired, triggered);
    forall k | k in triggered && k !in fired
      ensures k in Fire(fired, triggered)[|fired|..]
    {
      FireMembers(fired, triggered, k);
    }
  }

  /** A cycle in which every triggered key already fired adds nothing. */
  lemma {:induction false} FireNothingNew(fired: seq<AlertKey>, triggered: seq<AlertKey>)
    requires forall k :: k in triggered ==> k in fired
    ensures Fire(fired, triggered) == fired
    decreases |triggered|
  {
    if triggered != [] {
      assert triggered[0] in triggered;
      FireNothingNew(fired, triggered[1..]);
    }
  }

  /** Repeating a cycle with the same conditions on the same day fires nothing more. */
  lemma FireIdempotent(fired: seq<AlertKey>, triggered: seq<AlertKey>)
    ensures Fire(Fire(fired, triggered), triggered) == Fire(fired, triggered)
  {
    forall k | k in triggered
      ensures k in Fire(fired, triggered)
    {
      FireMembers(fired, triggered, k);
    }
    FireNothingNew(Fire(fired, triggered), triggered);
  }

  /**
   * A spike and a later dip of one asset are different keys: on a day when
   * neither fired, each fires once and neither fires again.
   */
  lemma SpikeThenDip(fired: seq<AlertKey>, key: string)
    requires Intraday(key, true) !in fired && Intraday(key, false) !in fired
    ensures Fire(fired, [Intraday(key, true)]) == fired + [Intraday(key, true)]
    ensures Fire(fired + [Intraday(key, true)], [Intraday(key, false)]) == fired + [Intraday(key, true), Intraday(key, false)]
    ensures var after := fired + [Intraday(key, true), Intraday(key, false)];
            Fire(after, [Intraday(key, true), Intraday(key, false)]) == after
  {
    var after := fired + [Intraday(key, true), Intraday(key, false)];
    FireNothingNew(after, [Intraday(key, true), Intraday(key, false)]);
  }

  /** The alert state document: `{"date": ..., "fired": [...]}`. */
  datatype Snapshot = Snapshot(date: Option<string>, fired: seq<AlertKey>)

  /**
   * `load_alerts_state` (tracker.py:281-294): a missing document gives an
   * undated empty state; a document from another day gives an empty state
   * dated today; today's document is kept.
   */
  function Loaded(stored: Option<Snapshot>, today: string): (s: Snapshot)
    ensures s.date == None || s.date == Some(today)
    ensures s.fired != [] ==> stored == Some(s) && s.date == Some(today)
  {
    match stored
    case None => Snapshot(None, [])
    case Some(state) =>
      if state.date != Some(today) then Snapshot(Some(today), []) else state
  }

  /** Loading on a new day discards yesterday's keys. */
  lemma LoadOnNewDay(stored: Snapshot, today: string)
    requires stored.date != Some(today)
    ensures Loaded(Some(stored), today) == Snapshot(Some(today), [])
  {
  }

  /** A state saved today loads back unchanged today. */
  lemma LoadAfterSave(fired: seq<AlertKey>, today: string)
    ensures Loaded(Some(Snapshot(Some(today), fired)), today) == Snapshot(Some(today), fired)
  {
  }

  /** The intraday check depends on the prices and configuration only through the current price, the open and the threshold. */
  lemma IntradaySame(key: string, p: Prices, cfg: AlertConfig)
    ensures IntradayAlert(key, Prices(p.priceGbp, p.openGbp, 0.0, None, None, None), AlertConfig(Some(Threshold(cfg, key)), map[], map[]))
         == IntradayAlert(key, p, cfg)
  {
  }

  /** The limit checks depend on the prices and configuration only through the current price and the asset's limits. */
  lemma LimitsSame(key: string, p: Prices, cfg: AlertConfig)
    ensures var own := AlertConfig(None, map[], map[key := LimitsFor(cfg, key)]);
            var q := Prices(p.priceGbp, 0.0, 0.0, None, None, None);
            AboveAlert(key, q, own) == AboveAlert(key, p, cfg) && BelowAlert(key, q, own) == BelowAlert(key, p, cfg)
  {
  }

  lemma FireCandidates(fired: seq<AlertKey>, key: string, p: Prices, cfg: AlertConfig)
    ensures Fire(fired, Candidates(key, p, cfg))
         == Fire(Fire(Fire(fired, IntradayAlert(key, p, cfg)), AboveAlert(key, p, cfg)), BelowAlert(key, p, cfg))
  {
    FireAppend(fired, IntradayAlert(key, p, cfg), AboveAlert(key, p, cfg));
    FireAppend(fired, IntradayAlert(key, p, cfg) + AboveAlert(key, p, cfg), BelowAlert(key, p, cfg));
  }

  /** The state `cmd_watch` holds in memory between its load and its save. */
  class AlertState {
    var date: Option<string>
    var fired: seq<AlertKey>

    constructor Load(stored: Option<Snapshot>, today: string)
      ensures date == Loaded(stored, today).date
      ensures fired == Loaded(stored, today).fired
    {
      var s := Loaded(stored, today);
      date := s.date;
      fired := s.fired;
    }

    /** Append `k` unless it already fired; say whether it was new. */
    method Mark(k: AlertKey) returns (isNew: bool)
      modifies this
      ensures date == old(date)
      ensures isNew == (k !in old(fired))
      ensures fired == Step(old(fired), k)
    {
      isNew := k !in fired;
      if isNew {
        fired := fired + [k];
      }
    }

    /** The intraday check of one asset (tracker.py:456-473). */
    method CheckIntraday(key: string, current: real, openPrice: real, threshold: real)
      modifies this
      ensures date == old(date)
      ensures fired == Fire(old(fired), IntradayAlert(key, Prices(current, openPrice, 0.0, None, None, None), AlertConfig(Some(threshold), map[], map[])))
    {
      if openPrice != 0.0 {
        var changePct := (current - openPrice) / openPrice * 100.0;
        if Abs(changePct) >= threshold {
          var _ := Mark(Intraday(key, changePct > 0.0));
        }
      }
    }

    /** The two absolute price checks of one asset (tracker.py:475-496). */
    method CheckLimits(key: string, current: real, limits: Limits)
      modifies this
      ensures date == old(date)
      ensures var cfg := AlertConfig(None, map[], map[key := limits]);
              var p := Prices(current, 0.0, 0.0, None, None, None);
              fired == Fire(Fire(old(fired), AboveAlert(key, p, cfg)), BelowAlert(key, p, cfg))
    {
      if limits.above.Some? && current >= limits.above.value {
        var _ := Mark(Above(key));
      }
      if limits.below.Some? && current <= limits.below.value {
        var _ := Mark(Below(key));
      }
    }

    /**
     * The checks of the `i`th asset (tracker.py:448-496); an asset without a
     * price is skipped. The fired list goes from the state after the first
     * `i` assets to the state after the first `i + 1`.
     */
    method EvaluateQuote(quotes: seq<Quote>, i: nat, rate: Option<real>, cfg: AlertConfig, ghost start: seq<AlertKey>)
      requires i < |quotes|
      requires fired == Fire(start, Triggered(quotes[..i], rate, cfg))
      modifies this
      ensures date == old(date)
      ensures fired == Fire(start, Triggered(quotes[..i + 1], rate, cfg))
    {
      TriggeredNext(quotes, i, rate, cfg);
      FireAppend(start, Triggered(quotes[..i], rate, cfg), AssetCandidates(quotes[i], rate, cfg));
      var q := quotes[i];
      var priceData := AssetPrice(q.asset, q.samples, rate);
      if priceData.None? {
        return;
      }
      var key := q.asset.key;
      var p := priceData.value;
      ghost var before := fired;
      CheckIntraday(key, p.priceGbp, p.openGbp, Threshold(cfg, key));
      IntradaySame(key, p, cfg);
      CheckLimits(key, p.priceGbp, LimitsFor(cfg, key));
      LimitsSame(key, p, cfg);
      FireCandidates(before, key, p, cfg);
    }

    /**
     * One evaluation cycle (tracker.py:447-498). Returns the newly fired keys
     * in order, standing for the alert messages collected for sending: each
     * message is collected exactly when its key is appended, so they are the
     * part of the fired list that this cycle added.
     */
    method Evaluate(quotes: seq<Quote>, rate: Option<real>, cfg: AlertConfig) returns (newly: seq<AlertKey>)
      modifies this
      ensures date == old(date)
      ensures fired == Fire(old(fired), Triggered(quotes, rate, cfg))
      ensures fired == old(fired) + newly
    {
      var start := |fired|;
      var i := 0;
      assert quotes[..0] == [];
      while i < |quotes|
        invariant 0 <= i <= |quotes|
        invariant date == old(date)
        invariant fired == Fire(old(fired), Triggered(quotes[..i], rate, cfg))
      {
        EvaluateQuote(quotes, i, rate, cfg, old(fired));
        i := i + 1;
      }
      assert quotes[..|quotes|] == quotes;
      FireExtends(old(fired), Triggered(quotes, rate, cfg));
      newly := fired[start..];
    }

    /** `save_alerts_state` (tracker.py:297-305): stamp today's date and write the document. */
    method Save(today: string) returns (saved: Snapshot)
      modifies this
      ensures date == Some(today) && fired == old(fired)
      ensures saved == Snapshot(Some(today), fired)
    {
      date := Some(today);
      saved := Snapshot(date, fired);
    }
  }

  /**
   * One run of `cmd_watch` without its I/O: load the state, evaluate every
   * asset, save. The clock is read twice, at load (tracker.py:290) and at
   * save (tracker.py:301), so a run that crosses midnight loads on `loadDay`
   * and saves on `saveDay`. The saved document is dated `saveDay` whether or
   * not anything fired; `newly` lists the alerts to send, in order: every
   * triggered key not yet fired that day, and nothing else.
   */
  method Watch(stored: Option<Snapshot>, loadDay: string, saveDay: string, quotes: seq<Quote>, rate: Option<real>, cfg: AlertConfig)
    returns (saved: Snapshot, newly: seq<AlertKey>)
    ensures saved.date == Some(saveDay)
    ensures saved.fired == Fire(Loaded(stored, loadDay).fired, Triggered(quotes, rate, cfg))
    ensures saved.fired == Loaded(stored, loadDay).fired + newly
    ensures forall k :: k in newly <==> k in Triggered(quotes, rate, cfg) && k !in Loaded(stored, loadDay).fired
  {
    var state := new AlertState.Load(stored, loadDay);
    newly := state.Evaluate(quotes, rate, cfg);
    saved := state.Save(saveDay);
    ghost var loaded := Loaded(stored, loadDay).fired;
    ghost var triggered := Triggered(quotes, rate, cfg);
    FireNewKeys(loaded, triggered);
    FireAddsNew(loaded, triggered);
    assert newly == saved.fired[|loaded|..];
  }

  /**
   * A run that loads on one day and saves after midnight carries the keys of
   * the first day into the second: loaded on the new day, they are kept and
   * do not fire again there.
   */
  lemma MidnightCarriesKeys(stored: Option<Snapshot>, loadDay: string, saveDay: string, first: seq<AlertKey>, second: seq<AlertKey>, k: AlertKey)
    requires k in Fire(Loaded(stored, loadDay).fired, first)
    ensures var saved := Snapshot(Some(saveDay), Fire(Loaded(stored, loadDay).fired, first));
            var carried := Loaded(Some(saved), saveDay).fired;
            k in carried && k !in Fire(carried, second)[|carried|..]
  {
    var carried := Fire(Loaded(stored, loadDay).fired, first);
    FireNewKeys(carried, second);
  }

  /** The saved fired list never holds a key twice, provided the stored one did not. */
  lemma WatchKeepsNoDup(stored: Option<Snapshot>, today: string, triggered: seq<AlertKey>)
    requires stored.Some? ==> NoDup(stored.value.fired)
    ensures NoDup(Fire(Loaded(stored, today).fired, triggered))
  {
    FireNoDup(Loaded(stored, today).fired, triggered);
  }

  /** Running the watch again on the same day with the same conditions sends nothing. */
  lemma SameDayRerun(stored: Option<Snapshot>, today: string, triggered: seq<AlertKey>)
    ensures var first := Snapshot(Some(today), Fire(Loaded(stored, today).fired, triggered));
            Fire(Loaded(Some(first), today).fired, triggered) == first.fired
  {
    FireIdempotent(Loaded(stored, today).fired, triggered);
  }

  /** On a new day every triggered key fires again. */
  lemma NewDayRefires(stored: Snapshot, today: string, triggered: seq<AlertKey>, k: AlertKey)
    requires stored.date != Some(today) && k in triggered
    ensures k in Fire(Loaded(Some(stored), today).fired, triggered)
  {
    FireMembers([], triggered, k);
  }
}
