/** The revenue tracker's per-country content counters. */
module Analytics {

  /** One entry of `revenue_data`. */
  datatype Metrics = Metrics(contentCount: int, estimatedRevenue: real)

  /** The entry a country gets the first time it is counted. */
  const Fresh: Metrics := Metrics(0, 0.0)

  /** The entry of `c`, or the fresh one when `c` has none yet. */
  function EntryOf(m: map<string, Metrics>, c: string): Metrics {
    if c in m then m[c] else Fresh
  }

  /** One iteration of the loop: make sure `c` has an entry, then add `count`. */
  function Bump(m: map<string, Metrics>, count: int, c: string): map<string, Metrics> {
    m[c := EntryOf(m, c).(contentCount := EntryOf(m, c).contentCount + count)]
  }

  /** The map after the loop has visited every country of `cs`, in order. */
  function Bumped(m: map<string, Metrics>, count: int, cs: seq<string>): map<string, Metrics>
    decreases |cs|
  {
    if cs == [] then m else Bump(Bumped(m, count, cs[..|cs| - 1]), count, cs[|cs| - 1])
  }

  /** The counted countries gain an entry; no other key appears or goes. */
  lemma {:induction false} BumpedKeys(m: map<string, Metrics>, count: int, cs: seq<string>)
    ensures Bumped(m, count, cs).Keys == m.Keys + set c | c in cs
    decreases |cs|
  {
    if cs != [] {
      var init := cs[..|cs| - 1];
      BumpedKeys(m, count, init);
      assert cs == init + [cs[|cs| - 1]];
      assert (set c | c in cs) == (set c | c in init) + {cs[|cs| - 1]};
    }
  }

  /** One iteration changes only the entry of the visited country. */
  lemma BumpEntry(m: map<string, Metrics>, count: int, x: string, c: string)
    ensures c == x ==> EntryOf(Bump(m, count, x), c) ==
                       EntryOf(m, c).(contentCount := EntryOf(m, c).contentCount + count)
    ensures c != x ==> EntryOf(Bump(m, count, x), c) == EntryOf(m, c)
  {
  }

  /** Every country's counter grows by `count` once per occurrence in `cs`,
      starting from 0 for a new one, and its revenue estimate is untouched. */
  lemma {:induction false} BumpedEntry(m: map<string, Metrics>, count: int, cs: seq<string>, c: string)
    ensures c in cs ==> c in Bumped(m, count, cs)
    ensures EntryOf(Bumped(m, count, cs), c).contentCount ==
            EntryOf(m, c).contentCount + count * multiset(cs)[c]
    ensures EntryOf(Bumped(m, count, cs), c).estimatedRevenue == EntryOf(m, c).estimatedRevenue
    decreases |cs|
  {
    if cs != [] {
      var init := cs[..|cs| - 1];
      var last := cs[|cs| - 1];
      BumpedEntry(m, count, init, c);
      var before := Bumped(m, count, init);
      BumpEntry(before, count, last, c);
      assert cs == init + [last];
      assert multiset(cs) == multiset(init) + multiset{last};
      var k := multiset(init)[c];
      if c == last {
        assert multiset(cs)[c] == k + 1;
        assert count * (k + 1) == count * k + count;
      } else {
        assert multiset(cs)[c] == k;
        assert c in cs ==> c in init;
      }
    }
  }

  /** A key that is not counted keeps its entry exactly. */
  lemma {:induction false} BumpedOthers(m: map<string, Metrics>, count: int, cs: seq<string>, c: string)
    requires c !in cs
    ensures c in m <==> c in Bumped(m, count, cs)
    ensures c in m ==> Bumped(m, count, cs)[c] == m[c]
    decreases |cs|
  {
    if cs != [] {
      var init := cs[..|cs| - 1];
      assert forall x :: x in init ==> x in cs;
      BumpedOthers(m, count, init, c);
    }
  }

  /** `RevenueTracker`: `revenue_data` and `total_revenue`. */
  class RevenueTracker {
    var revenueData: map<string, Metrics>
    var totalRevenue: real

    constructor ()
      ensures revenueData == map[] && totalRevenue == 0.0
    {
      revenueData := map[];
      totalRevenue := 0.0;
    }

    /** `update_content_metrics`: add `contentCount` to the counter of each
        listed country, once per listing. */
    method UpdateContentMetrics(contentCount: int, countries: seq<string>)
      modifies this
      ensures revenueData == Bumped(old(revenueData), contentCount, countries)
      ensures totalRevenue == old(totalRevenue)
    {
      var i := 0;
      while i < |countries|
        invariant 0 <= i <= |countries|
        invariant revenueData == Bumped(old(revenueData), contentCount, countries[..i])
        invariant totalRevenue == old(totalRevenue)
      {
        var country := countries[i];
        assert countries[..i + 1][..i] == countries[..i];
        if country !in revenueData {
          revenueData := revenueData[country := Metrics(0, 0.0)];
        }
        var entry := revenueData[country];
        revenueData := revenueData[country := entry.(contentCount := entry.contentCount + contentCount)];
        i := i + 1;
      }
      assert countries[..|countries|] == countries;
    }
  }
}
