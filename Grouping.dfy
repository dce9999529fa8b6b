/** The `peakLoadMeters` channel: meters are grouped by region (default "Unknown")
    into an accumulator object, and its keys, in first-insertion order, become the
    chart entries `{name: region, value: count}`. */
module Grouping {
  import opened Telemetry

  /** `item.region || 'Unknown'` for one meter record. */
  function RegionOf(it: Item): string
    requires it.Record?
  {
    OrElse(it.region, Unknown)
  }

  /** The defaulted region of every meter, in input order. */
  function Regions(items: seq<Item>): (rs: seq<string>)
    requires NoNulls(items)
    ensures |rs| == |items|
  {
    seq(|items|, i requires 0 <= i < |items| => RegionOf(items[i]))
  }

  /** The distinct elements of `s` in the order they first appear: the keys of the
      accumulator, each added when its region is met for the first time. */
  function FirstSeen(s: seq<string>): (keys: seq<string>)
    ensures forall x :: x in keys <==> x in s
    ensures Distinct(keys)
  {
    if s == [] then []
    else
      var init, last := s[..|s| - 1], s[|s| - 1];
      assert s == init + [last];
      var keys := FirstSeen(init);
      if last in keys then keys else keys + [last]
  }

  /** The position of the first occurrence of `x` in `s`. */
  function FirstIndex(s: seq<string>, x: string): (k: nat)
    requires x in s
    ensures k < |s| && s[k] == x && x !in s[..k]
  {
    if s[0] == x then 0 else 1 + FirstIndex(s[1..], x)
  }

  /** `Object.keys(acc).map(region => ({name: region, value: acc[region]}))`, with the
      accumulator's counts given as a multiset. */
  function Entries(keys: seq<string>, counts: multiset<string>): (es: seq<Entry>)
    ensures |es| == |keys|
  {
    seq(|keys|, i requires 0 <= i < |keys| => Entry(keys[i], counts[keys[i]]))
  }

  /** The grouping of a list of region names. */
  function Tally(s: seq<string>): seq<Entry> {
    Entries(FirstSeen(s), multiset(s))
  }

  /** The `peakLoadMeters` projection; `None` when an element is `null`, where reading
      its region throws and the aggregate is not replaced. */
  function PeakLoad(items: seq<Item>): (r: Option<seq<Entry>>)
    ensures r.Some? <==> NoNulls(items)
  {
    if NoNulls(items) then Some(Tally(Regions(items))) else None
  }

  /** The names of a list of entries. */
  function Names(es: seq<Entry>): (ns: seq<string>)
    ensures |ns| == |es|
  {
    seq(|es|, i requires 0 <= i < |es| => es[i].name)
  }

  predicate Distinct(s: seq<string>) {
    forall i, j :: 0 <= i < j < |s| ==> s[i] != s[j]
  }

  /** The shape every peak-load aggregate has: one entry per region, none of them empty. */
  predicate WellGrouped(es: seq<Entry>) {
    Distinct(Names(es)) && forall i :: 0 <= i < |es| ==> es[i].value >= 1
  }

  /** The keys appear in the order of their first occurrence in `s`. */
  lemma {:induction false} FirstSeenOrder(s: seq<string>, i: nat, j: nat)
    requires i < j < |FirstSeen(s)|
    ensures FirstSeen(s)[i] in s && FirstSeen(s)[j] in s
    ensures FirstIndex(s, FirstSeen(s)[i]) < FirstIndex(s, FirstSeen(s)[j])
  {
    var init := s[..|s| - 1];
    var last := s[|s| - 1];
    var keys := FirstSeen(init);
    assert s == init + [last];
    var x := FirstSeen(s)[i];
    assert x == keys[i] && x in init;
    FirstIndexPrefix(init, last, x);
    if j < |keys| {
      FirstSeenOrder(init, i, j);
      FirstIndexPrefix(init, last, keys[j]);
    } else {
      assert last !in init && FirstSeen(s)[j] == last;
      assert s[..|init|] == init;
      FirstIndexUnique(s, last, |init|);
    }
  }

  lemma FirstIndexPrefix(init: seq<string>, last: string, x: string)
    requires x in init
    ensures FirstIndex(init + [last], x) == FirstIndex(init, x)
  {
    var k := FirstIndex(init, x);
    assert (init + [last])[..k] == init[..k];
    FirstIndexUnique(init + [last], x, k);
  }

  /** The first index is the one position holding `x` with no `x` before it. */
  lemma {:induction false} FirstIndexUnique(s: seq<string>, x: string, k: nat)
    requires k < |s| && s[k] == x && x !in s[..k]
    ensures FirstIndex(s, x) == k
  {
    if k > 0 {
      assert s[0] in s[..k];
      var tail, before := s[1..][..k - 1], s[..k];
      assert forall j :: 0 <= j < |tail| ==> tail[j] == before[j + 1];
      FirstIndexUnique(s[1..], x, k - 1);
    }
  }

  lemma EntriesSnoc(keys: seq<string>, k: string, counts: multiset<string>)
    ensures Entries(keys + [k], counts) == Entries(keys, counts) + [Entry(k, counts[k])]
  {
    var a, b := Entries(keys + [k], counts), Entries(keys, counts) + [Entry(k, counts[k])];
    assert forall i :: 0 <= i < |a| ==> a[i] == b[i];
  }

  /** Adding one occurrence of `x` to the counts raises the entries' total by one
      exactly when `x` is one of the (distinct) keys. */
  lemma {:induction false} SumBump(keys: seq<string>, counts: multiset<string>, x: string)
    requires Distinct(keys)
    ensures SumValues(Entries(keys, counts + multiset{x}))
         == SumValues(Entries(keys, counts)) + (if x in keys then 1 else 0)
  {
    if keys != [] {
      var init, k := keys[..|keys| - 1], keys[|keys| - 1];
      assert keys == init + [k];
      SumBump(init, counts, x);
      EntriesSnoc(init, k, counts);
      EntriesSnoc(init, k, counts + multiset{x});
      var bumped := Entries(init, counts + multiset{x}) + [Entry(k, (counts + multiset{x})[k])];
      assert bumped[..|bumped| - 1] == Entries(init, counts + multiset{x});
      var plain := Entries(init, counts) + [Entry(k, counts[k])];
      assert plain[..|plain| - 1] == Entries(init, counts);
      assert x in keys <==> x in init || x == k;
      assert x == k ==> x !in init;
    }
  }

  /** Every meter is counted exactly once: the counts add up to the number of meters. */
  lemma {:induction false} TallySum(s: seq<string>)
    ensures SumValues(Tally(s)) == |s|
  {
    if s != [] {
      var init, last := s[..|s| - 1], s[|s| - 1];
      assert s == init + [last];
      TallySum(init);
      var keys := FirstSeen(init);
      SumBump(keys, multiset(init), last);
      assert multiset(s) == multiset(init) + multiset{last};
      if last !in keys {
        EntriesSnoc(keys, last, multiset(s));
        var es := Entries(keys, multiset(s)) + [Entry(last, multiset(s)[last])];
        assert es[..|es| - 1] == Entries(keys, multiset(s));
        assert multiset(init)[last] == 0;
      }
    }
  }

  /** A region is a key exactly when some meter is in it, each key counts the meters
      in its region, and none of those counts is zero. */
  lemma TallyCounts(s: seq<string>)
    ensures forall x :: x in Names(Tally(s)) <==> x in s
    ensures forall i :: 0 <= i < |Tally(s)| ==> Tally(s)[i].value == multiset(s)[Tally(s)[i].name]
    ensures WellGrouped(Tally(s))
  {
    assert Names(Tally(s)) == FirstSeen(s);
    forall x | x in s ensures multiset(s)[x] >= 1 {
      assert x in multiset(s);
    }
  }

  /** The peak-load aggregate has one entry per distinct defaulted region, in
      first-seen order; each counts that region's meters, at least one, and the
      counts sum to the number of meters. */
  lemma PeakLoadProperties(items: seq<Item>)
    requires NoNulls(items)
    ensures PeakLoad(items).Some?
    ensures var es := PeakLoad(items).value;
      && Names(es) == FirstSeen(Regions(items))
      && (forall x :: x in Names(es) <==> x in Regions(items))
      && WellGrouped(es)
      && (forall i :: 0 <= i < |es| ==> es[i].value == multiset(Regions(items))[es[i].name])
      && SumValues(es) == |items|
  {
    var rs := Regions(items);
    TallyCounts(rs);
    TallySum(rs);
    assert Names(Tally(rs)) == FirstSeen(rs);
  }

  /** Grouping builds the accumulator one meter at a time (`reduce` with `acc[region]++`)
      and then lists it by key; a `null` meter makes the region read throw. */
  method GroupByRegion(items: seq<Item>) returns (r: Option<seq<Entry>>)
    ensures r == PeakLoad(items)
  {
    var keys: seq<string> := [];
    var acc: map<string, int> := map[];
    var i := 0;
    while i < |items|
      invariant 0 <= i <= |items|
      invariant NoNulls(items[..i])
      invariant keys == FirstSeen(Regions(items[..i]))
      invariant forall k :: k in acc <==> k in keys
      invariant forall k :: k in acc ==> acc[k] == multiset(Regions(items[..i]))[k]
    {
      if items[i].NullItem? {
        assert !NoNulls(items);
        return None;
      }
      var region := RegionOf(items[i]);
      ghost var before := Regions(items[..i]);
      assert items[..i + 1] == items[..i] + [items[i]];
      assert Regions(items[..i + 1]) == before + [region];
      assert (before + [region])[..|before|] == before;
      if region !in acc {
        assert multiset(before)[region] == 0;
        acc := acc[region := 0];
        keys := keys + [region];
      }
      acc := acc[region := acc[region] + 1];
      i := i + 1;
    }
    assert items[..i] == items;
    r := Some(seq(|keys|, j requires 0 <= j < |keys| => Entry(keys[j], acc[keys[j]])));
    assert r.value == Tally(Regions(items));
  }

  lemma FirstSeenScenario()
    ensures FirstSeen(["North", "North", Unknown]) == ["North", Unknown]
  {
    var rs := ["North", "North", Unknown];
    assert rs[..2] == ["North", "North"] && rs[..2][..1] == ["North"];
    assert ["North"][..0] == [];
    assert FirstSeen(["North"]) == ["North"];
    assert FirstSeen(["North", "North"]) == ["North"];
  }

  /** The scenario of two meters in "North" and one with a `null` region. */
  lemma PeakScenario()
    ensures PeakLoad([Record(Some("North"), None, None), Record(Some("North"), None, None), Record(None, None, None)])
         == Some([Entry("North", 2), Entry(Unknown, 1)])
  {
    var items := [Record(Some("North"), None, None), Record(Some("North"), None, None), Record(None, None, None)];
    assert NoNulls(items);
    var rs := Regions(items);
    assert rs == ["North", "North", Unknown];
    FirstSeenScenario();
    assert multiset(rs) == multiset{"North", "North", Unknown};
    var t := Tally(rs);
    assert multiset(rs)["North"] == 2 && multiset(rs)[Unknown] == 1;
    assert t[0] == Entry("North", 2) && t[1] == Entry(Unknown, 1);
    assert t == [Entry("North", 2), Entry(Unknown, 1)];
  }
}
