/**
 * The price history: a list of daily entries, replaced by date when the daily
 * summary records today's prices (tracker.py:411-418) and trimmed to the
 * retention window whenever it is saved (tracker.py:234-245). The clock is a
 * parameter: `today` and the `cutoff` date string are given.
 */
module HistoryStore {
  import opened Wrappers
  import opened DateOrder

  /**
   * One day's record: the GBP price per asset key and the exchange rate used.
   * A stored price may be null in the JSON document, hence Option.
   */
  datatype HistoryEntry = HistoryEntry(date: string, prices: map<string, Option<real>>, rate: Option<real>)

  /** The day's prices as the summary stores them: every price present. */
  function Stored(prices: map<string, real>): (m: map<string, Option<real>>)
    ensures m.Keys == prices.Keys
    ensures forall k :: k in m ==> m[k] == Some(prices[k])
  {
    map k | k in prices :: Some(prices[k])
  }

  /** The entries dated `d`, in history order. */
  function EntriesOn(s: seq<HistoryEntry>, d: string): (r: seq<HistoryEntry>)
    ensures forall e :: e in r <==> e in s && e.date == d
  {
    if s == [] then []
    else (if s[0].date == d then [s[0]] else []) + EntriesOn(s[1..], d)
  }

  /** At most one entry per date: the history is keyed by date. */
  ghost predicate UniqueDates(s: seq<HistoryEntry>) {
    forall d :: |EntriesOn(s, d)| <= 1
  }

  /** `[e for e in s if e["date"] != d]` (tracker.py:413). */
  function WithoutDate(s: seq<HistoryEntry>, d: string): (r: seq<HistoryEntry>)
    ensures forall e :: e in r <==> e in s && e.date != d
  {
    if s == [] then []
    else (if s[0].date != d then [s[0]] else []) + WithoutDate(s[1..], d)
  }

  /** Today's entry replaces any entry of the same date and goes last (tracker.py:413-418). */
  function Replaced(s: seq<HistoryEntry>, e: HistoryEntry): (r: seq<HistoryEntry>)
    ensures forall x :: x in r <==> x == e || (x in s && x.date != e.date)
    ensures r[|r| - 1] == e
  {
    WithoutDate(s, e.date) + [e]
  }

  /** `[e for e in s if e["date"] >= cutoff]` (tracker.py:242-245). */
  function Retained(s: seq<HistoryEntry>, cutoff: string): (r: seq<HistoryEntry>)
    ensures forall e :: e in r <==> e in s && LessEq(cutoff, e.date)
  {
    if s == [] then []
    else (if LessEq(cutoff, s[0].date) then [s[0]] else []) + Retained(s[1..], cutoff)
  }

  lemma {:induction false} EntriesOnAppend(a: seq<HistoryEntry>, b: seq<HistoryEntry>, d: string)
    ensures EntriesOn(a + b, d) == EntriesOn(a, d) + EntriesOn(b, d)
  {
    if a == [] {
      assert a + b == b;
    } else {
      assert (a + b)[0] == a[0] && (a + b)[1..] == a[1..] + b;
      EntriesOnAppend(a[1..], b, d);
    }
  }

  /** Dropping date `d` removes exactly the entries of that date and keeps the others in order. */
  lemma {:induction false} EntriesOnWithoutDate(s: seq<HistoryEntry>, d: string, d': string)
    ensures EntriesOn(WithoutDate(s, d), d') == if d' == d then [] else EntriesOn(s, d')
  {
    if s != [] {
      EntriesOnWithoutDate(s[1..], d, d');
      EntriesOnAppend(if s[0].date != d then [s[0]] else [], WithoutDate(s[1..], d), d');
    }
  }

  /** Trimming keeps every entry of a date inside the window, in order, and none outside it. */
  lemma {:induction false} EntriesOnRetained(s: seq<HistoryEntry>, cutoff: string, d: string)
    ensures EntriesOn(Retained(s, cutoff), d) == if LessEq(cutoff, d) then EntriesOn(s, d) else []
  {
    if s != [] {
      EntriesOnRetained(s[1..], cutoff, d);
      EntriesOnAppend(if LessEq(cutoff, s[0].date) then [s[0]] else [], Retained(s[1..], cutoff), d);
    }
  }

  /**
   * After recording, exactly one entry carries the recorded date and it is the
   * new one; every other date keeps its entries in their order.
   */
  lemma ReplacedOnDate(s: seq<HistoryEntry>, e: HistoryEntry, d: string)
    ensures EntriesOn(Replaced(s, e), d) == if d == e.date then [e] else EntriesOn(s, d)
  {
    EntriesOnAppend(WithoutDate(s, e.date), [e], d);
    EntriesOnWithoutDate(s, e.date, d);
  }

  lemma {:induction false} WithoutDateAppend(a: seq<HistoryEntry>, b: seq<HistoryEntry>, d: string)
    ensures WithoutDate(a + b, d) == WithoutDate(a, d) + WithoutDate(b, d)
  {
    if a == [] {
      assert a + b == b;
    } else {
      assert (a + b)[0] == a[0] && (a + b)[1..] == a[1..] + b;
      WithoutDateAppend(a[1..], b, d);
    }
  }

  lemma {:induction false} WithoutDateIdempotent(s: seq<HistoryEntry>, d: string)
    ensures WithoutDate(WithoutDate(s, d), d) == WithoutDate(s, d)
  {
    if s != [] {
      WithoutDateIdempotent(s[1..], d);
      WithoutDateAppend(if s[0].date != d then [s[0]] else [], WithoutDate(s[1..], d), d);
    }
  }

  /** Two writes on the same date leave the second write only: replace, not duplicate. */
  lemma ReplaceTwice(s: seq<HistoryEntry>, first: HistoryEntry, second: HistoryEntry)
    requires first.date == second.date
    ensures Replaced(Replaced(s, first), second) == Replaced(s, second)
  {
    var d := first.date;
    var rest := WithoutDate(s, d);
    WithoutDateAppend(rest, [first], d);
    WithoutDateIdempotent(s, d);
    assert WithoutDate([first], d) == [];
    assert WithoutDate(Replaced(s, first), d) == rest;
  }

  /** Recording keeps the history keyed by date. */
  lemma ReplacedUnique(s: seq<HistoryEntry>, e: HistoryEntry)
    requires UniqueDates(s)
    ensures UniqueDates(Replaced(s, e))
  {
    forall d ensures |EntriesOn(Replaced(s, e), d)| <= 1 {
      ReplacedOnDate(s, e, d);
    }
  }

  /** Trimming keeps the history keyed by date. */
  lemma RetainedUnique(s: seq<HistoryEntry>, cutoff: string)
    requires UniqueDates(s)
    ensures UniqueDates(Retained(s, cutoff))
  {
    forall d ensures |EntriesOn(Retained(s, cutoff), d)| <= 1 {
      EntriesOnRetained(s, cutoff, d);
    }
  }

  /**
   * Recording today's entry and then saving leaves exactly that entry for
   * today, provided the cutoff does not lie after today.
   */
  lemma SavedToday(s: seq<HistoryEntry>, e: HistoryEntry, cutoff: string)
    requires LessEq(cutoff, e.date)
    ensures EntriesOn(Retained(Replaced(s, e), cutoff), e.date) == [e]
  {
    EntriesOnRetained(Replaced(s, e), cutoff, e.date);
    ReplacedOnDate(s, e, e.date);
  }

  lemma {:induction false} RetainedAppend(a: seq<HistoryEntry>, b: seq<HistoryEntry>, cutoff: string)
    ensures Retained(a + b, cutoff) == Retained(a, cutoff) + Retained(b, cutoff)
  {
    if a == [] {
      assert a + b == b;
    } else {
      assert (a + b)[0] == a[0] && (a + b)[1..] == a[1..] + b;
      RetainedAppend(a[1..], b, cutoff);
    }
  }

  /** Trimming twice to the same cutoff is trimming once. */
  lemma {:induction false} RetainedIdempotent(s: seq<HistoryEntry>, cutoff: string)
    ensures Retained(Retained(s, cutoff), cutoff) == Retained(s, cutoff)
  {
    if s != [] {
      RetainedIdempotent(s[1..], cutoff);
      RetainedAppend(if LessEq(cutoff, s[0].date) then [s[0]] else [], Retained(s[1..], cutoff), cutoff);
    }
  }

  /** Dropping a date and trimming commute. */
  lemma {:induction false} WithoutDateRetained(s: seq<HistoryEntry>, d: string, cutoff: string)
    ensures WithoutDate(Retained(s, cutoff), d) == Retained(WithoutDate(s, d), cutoff)
  {
    if s != [] {
      WithoutDateRetained(s[1..], d, cutoff);
      var keep := if LessEq(cutoff, s[0].date) then [s[0]] else [];
      var other := if s[0].date != d then [s[0]] else [];
      WithoutDateAppend(keep, Retained(s[1..], cutoff), d);
      RetainedAppend(other, WithoutDate(s[1..], d), cutoff);
    }
  }

  /** Saving after recording an entry inside the window keeps it last, after the trimmed rest. */
  lemma RetainedReplaced(s: seq<HistoryEntry>, e: HistoryEntry, cutoff: string)
    requires LessEq(cutoff, e.date)
    ensures Retained(Replaced(s, e), cutoff) == Retained(WithoutDate(s, e.date), cutoff) + [e]
  {
    RetainedAppend(WithoutDate(s, e.date), [e], cutoff);
    assert Retained([e], cutoff) == [e];
  }

  /** Recording into a history that holds no entry of that date only appends. */
  lemma ReplacedFresh(s: seq<HistoryEntry>, e: HistoryEntry)
    requires WithoutDate(s, e.date) == s
    ensures Replaced(s + [e], e) == s + [e]
  {
    WithoutDateAppend(s, [e], e.date);
    assert WithoutDate([e], e.date) == [];
  }

  /**
   * Recording and saving the same entry a second time leaves the history
   * as the first time did, provided the cutoff does not lie after its date.
   */
  lemma RecordAndSaveTwice(s: seq<HistoryEntry>, e: HistoryEntry, cutoff: string)
    requires LessEq(cutoff, e.date)
    ensures Retained(Replaced(Retained(Replaced(s, e), cutoff), e), cutoff) == Retained(Replaced(s, e), cutoff)
  {
    var d := e.date;
    var kept := Retained(WithoutDate(s, d), cutoff);
    var once := Retained(Replaced(s, e), cutoff);
    RetainedReplaced(s, e, cutoff);
    assert once == kept + [e];
    WithoutDateRetained(WithoutDate(s, d), d, cutoff);
    WithoutDateIdempotent(s, d);
    assert WithoutDate(kept, d) == kept;
    ReplacedFresh(kept, e);
    assert Replaced(once, e) == once;
    RetainedIdempotent(WithoutDate(s, d), cutoff);
    RetainedAppend(kept, [e], cutoff);
    assert Retained([e], cutoff) == [e];
  }

  /** The history document held in memory between its load and its save. */
  class History {
    var entries: seq<HistoryEntry>

    /** `load_history` (tracker.py:225-231): a missing store is an empty history. */
    constructor Load(stored: Option<seq<HistoryEntry>>)
      ensures stored.None? ==> entries == []
      ensures stored.Some? ==> entries == stored.value
    {
      entries := stored.GetOr([]);
    }

    /** Remove any entry for today, then append today's (tracker.py:413-418). */
    method RecordToday(today: string, prices: map<string, real>, rate: Option<real>)
      modifies this
      ensures entries == Replaced(old(entries), HistoryEntry(today, Stored(prices), rate))
      ensures EntriesOn(entries, today) == [HistoryEntry(today, Stored(prices), rate)]
      ensures forall d :: d != today ==> EntriesOn(entries, d) == EntriesOn(old(entries), d)
      ensures UniqueDates(old(entries)) ==> UniqueDates(entries)
    {
      var entry := HistoryEntry(today, Stored(prices), rate);
      ghost var before := entries;
      entries := WithoutDate(entries, today);
      entries := entries + [entry];
      assert entries == Replaced(before, entry);
      forall d | d != today
        ensures EntriesOn(Replaced(before, entry), d) == EntriesOn(before, d)
      {
        ReplacedOnDate(before, entry, d);
      }
      ReplacedOnDate(before, entry, today);
      if UniqueDates(before) {
        ReplacedUnique(before, entry);
      }
    }

    /** The trim done by `save_history` before writing (tracker.py:238-245). */
    method Save(cutoff: string)
      modifies this
      ensures entries == Retained(old(entries), cutoff)
      ensures forall e :: e in entries <==> e in old(entries) && LessEq(cutoff, e.date)
      ensures forall d :: EntriesOn(entries, d) == if LessEq(cutoff, d) then EntriesOn(old(entries), d) else []
      ensures UniqueDates(old(entries)) ==> UniqueDates(entries)
    {
      ghost var before := entries;
      entries := Retained(entries, cutoff);
      forall d
        ensures EntriesOn(Retained(before, cutoff), d) == if LessEq(cutoff, d) then EntriesOn(before, d) else []
      {
        EntriesOnRetained(before, cutoff, d);
      }
      if UniqueDates(before) {
        RetainedUnique(before, cutoff);
      }
    }
  }
}
