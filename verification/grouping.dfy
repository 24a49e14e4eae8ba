/**
 The forecast provider's 3-hour samples and the forecast card's grouping of
 them by calendar date: the date key is the part of `dt_txt` before the first
 space, dates are kept in the order they are first seen (the insertion order of
 the `daily` object's non-numeric keys), and each date owns the samples that
 carry it, in list order.
 */
module Grouping {
  import opened Common

  /** One entry of the forecast `list`; `condition` and `icon` are
      `weather[0].main` and `weather[0].icon`. */
  datatype Sample = Sample(
    dt: int,
    dtTxt: string,
    temp: real,
    feelsLike: real,
    humidity: int,
    windSpeed: real,
    pop: Option<real>,
    condition: string,
    icon: string)

  /** `s.split(" ")[0]`: the longest space-free prefix. */
  function DateKey(s: string): (r: string)
    ensures r <= s
    ensures ' ' !in r
    ensures |r| < |s| ==> s[|r|] == ' '
  {
    if s == [] || s[0] == ' ' then []
    else
      assert s == [s[0]] + s[1..];
      [s[0]] + DateKey(s[1..])
  }

  /** A provider timestamp "date time" yields its date part. */
  lemma {:induction false} DateKeyOfStamp(date: string, time: string)
    requires ' ' !in date
    ensures DateKey(date + " " + time) == date
  {
    if date != [] {
      assert (date + " " + time)[0] == date[0];
      assert (date + " " + time)[1..] == date[1..] + " " + time;
      DateKeyOfStamp(date[1..], time);
    }
  }

  function Key(x: Sample): string {
    DateKey(x.dtTxt)
  }

  /** The `daily` object's keys in insertion order: each sample's date is
      added the first time it is seen. */
  function DayKeys(xs: seq<Sample>): (r: seq<string>)
    ensures Distinct(r)
    ensures forall k :: k in r <==> exists i :: 0 <= i < |xs| && Key(xs[i]) == k
    ensures |r| <= |xs|
    decreases |xs|
  {
    if xs == [] then []
    else
      var init := xs[..|xs| - 1];
      var ks := DayKeys(init);
      var k := Key(xs[|xs| - 1]);
      assert forall i :: 0 <= i < |init| ==> init[i] == xs[i];
      if k in ks then ks
      else
        assert forall i :: 0 <= i < |ks| ==> ks[i] != k;
        ks + [k]
  }

  /** The array `daily[k]`: the samples whose date is `k`, in list order. */
  function SamplesOn(xs: seq<Sample>, k: string): (r: seq<Sample>)
    ensures forall j :: 0 <= j < |r| ==> Key(r[j]) == k
    ensures |r| > 0 <==> exists i :: 0 <= i < |xs| && Key(xs[i]) == k
    decreases |xs|
  {
    if xs == [] then []
    else
      var init := xs[..|xs| - 1];
      var x := xs[|xs| - 1];
      assert xs == init + [x];
      assert forall i :: 0 <= i < |init| ==> init[i] == xs[i];
      if Key(x) == k then SamplesOn(init, k) + [x] else SamplesOn(init, k)
  }

  /** Every sample lands in the group of its own date, as often as it occurs
      in the list, and in no other group. */
  lemma {:induction false} SamplesOnCounts(xs: seq<Sample>, k: string, x: Sample)
    ensures multiset(SamplesOn(xs, k))[x] == if Key(x) == k then multiset(xs)[x] else 0
    decreases |xs|
  {
    if xs != [] {
      var init := xs[..|xs| - 1];
      assert xs == init + [xs[|xs| - 1]];
      SamplesOnCounts(init, k, x);
    }
  }

  /** The set of distinct dates in the list. */
  function Dates(xs: seq<Sample>): set<string> {
    set i | 0 <= i < |xs| :: Key(xs[i])
  }

  /** The date list has one entry per distinct date. */
  lemma DayKeysCount(xs: seq<Sample>)
    ensures |DayKeys(xs)| == |Dates(xs)|
  {
    var ks := DayKeys(xs);
    assert (set k | k in ks) == Dates(xs) by {
      forall k | k in ks
        ensures k in Dates(xs)
      {
        var i :| 0 <= i < |xs| && Key(xs[i]) == k;
      }
    }
    DistinctCardinality(ks);
  }

  /** A date's group is non-empty exactly when the date is among the keys,
      so `daily[date][floor(n/2)]` is always in range. */
  lemma GroupNonEmpty(xs: seq<Sample>, k: string)
    ensures k in DayKeys(xs) <==> |SamplesOn(xs, k)| > 0
  {
  }

  /** Grouping commutes with concatenation: within a group, samples from an
      earlier stretch of the list come before samples from a later one. */
  lemma {:induction false} SamplesOnAppend(xs: seq<Sample>, ys: seq<Sample>, k: string)
    ensures SamplesOn(xs + ys, k) == SamplesOn(xs, k) + SamplesOn(ys, k)
    decreases |ys|
  {
    if ys == [] {
      assert xs + ys == xs;
    } else {
      var init := ys[..|ys| - 1];
      var y := ys[|ys| - 1];
      assert (xs + ys)[..|xs + ys| - 1] == xs + init;
      assert (xs + ys)[|xs + ys| - 1] == y;
      SamplesOnAppend(xs, init, k);
    }
  }

  /** Order of first appearance: every occurrence of a later key is preceded
      by an occurrence of each earlier key. */
  lemma {:induction false} DayKeysFirstSeenOrder(xs: seq<Sample>, a: nat, b: nat, i: nat)
    requires a < b < |DayKeys(xs)|
    requires i < |xs| && Key(xs[i]) == DayKeys(xs)[b]
    ensures exists i' :: 0 <= i' < i && Key(xs[i']) == DayKeys(xs)[a]
    decreases |xs|
  {
    var init := xs[..|xs| - 1];
    var ks := DayKeys(xs);
    var ks' := DayKeys(init);
    assert forall j :: 0 <= j < |init| ==> init[j] == xs[j];
    assert ks == ks' || ks == ks' + [Key(xs[|xs| - 1])];
    if i < |init| {
      assert Key(init[i]) == ks[b];
      assert ks[b] in ks';
      var b' :| 0 <= b' < |ks'| && ks'[b'] == ks[b];
      assert ks[b'] == ks'[b'];
      assert b' == b;
      assert ks[a] == ks'[a];
      DayKeysFirstSeenOrder(init, a, b, i);
    } else {
      assert a < |ks'| by {
        if ks != ks' {
          assert Key(xs[|xs| - 1]) !in ks';
          assert b == |ks'|;
        }
      }
      assert ks[a] == ks'[a];
      assert ks[a] in ks';
      var i' :| 0 <= i' < |init| && Key(init[i']) == ks[a];
      assert Key(xs[i']) == ks[a];
    }
  }

  /** Sum of the group sizes of the keys `ks`. */
  function GroupSizes(xs: seq<Sample>, ks: seq<string>): nat
    decreases |ks|
  {
    if ks == [] then 0
    else GroupSizes(xs, ks[..|ks| - 1]) + |SamplesOn(xs, ks[|ks| - 1])|
  }

  /** One more sample grows exactly the group of its own date. */
  lemma {:induction false} GroupSizesStep(xs: seq<Sample>, x: Sample, ks: seq<string>)
    requires Distinct(ks)
    ensures GroupSizes(xs + [x], ks) == GroupSizes(xs, ks) + if Key(x) in ks then 1 else 0
    decreases |ks|
  {
    if ks != [] {
      var init := ks[..|ks| - 1];
      var k := ks[|ks| - 1];
      assert ks == init + [k];
      assert Distinct(init);
      assert k !in init by {
        forall j | 0 <= j < |init|
          ensures init[j] != k
        {
          assert init[j] == ks[j];
        }
      }
      GroupSizesStep(xs, x, init);
      assert (xs + [x])[..|xs + [x]| - 1] == xs;
    }
  }

  /** The groups partition the list: their sizes add up to its length. */
  lemma {:induction false} GroupsPartition(xs: seq<Sample>)
    ensures GroupSizes(xs, DayKeys(xs)) == |xs|
    decreases |xs|
  {
    if xs != [] {
      var init := xs[..|xs| - 1];
      var x := xs[|xs| - 1];
      var ks' := DayKeys(init);
      assert xs == init + [x];
      GroupsPartition(init);
      GroupSizesStep(init, x, ks');
      if Key(x) !in ks' {
        assert DayKeys(xs) == ks' + [Key(x)];
        assert (ks' + [Key(x)])[..|ks'|] == ks';
        assert |SamplesOn(init, Key(x))| == 0;
        assert SamplesOn(xs, Key(x)) == [x];
      }
    }
  }

  /** Appending one sample: its date joins the keys if new, and it joins the
      end of its own date's group only. */
  lemma Snoc(xs: seq<Sample>, x: Sample)
    ensures DayKeys(xs + [x]) == if Key(x) in DayKeys(xs) then DayKeys(xs) else DayKeys(xs) + [Key(x)]
    ensures forall k :: SamplesOn(xs + [x], k) == if Key(x) == k then SamplesOn(xs, k) + [x] else SamplesOn(xs, k)
  {
    assert (xs + [x])[..|xs + [x]| - 1] == xs;
  }

  lemma PrefixStep(xs: seq<Sample>, i: nat)
    requires i < |xs|
    ensures xs[..i + 1] == xs[..i] + [xs[i]]
  {
  }

  /** `keys` and `daily` are the key order and contents of the `daily`
      object after the samples `xs`. */
  ghost predicate Grouped(xs: seq<Sample>, keys: seq<string>, daily: map<string, seq<Sample>>) {
    && keys == DayKeys(xs)
    && (forall k :: k in daily <==> k in keys)
    && (forall k :: k in daily ==> daily[k] == SamplesOn(xs, k))
  }

  /** One iteration of the `forEach` body keeps `Grouped`. */
  lemma GroupedStep(xs: seq<Sample>, item: Sample, keys: seq<string>, daily: map<string, seq<Sample>>)
    requires Grouped(xs, keys, daily)
    ensures var date := Key(item);
            var group := if date in daily then daily[date] else [];
            var keys' := if date in daily then keys else keys + [date];
            Grouped(xs + [item], keys', daily[date := group + [item]])
  {
    Snoc(xs, item);
  }

  /** The forecast card's `forEach` loop building the `daily` object; `keys`
      records the object's key order. */
  method GroupByDay(list: seq<Sample>) returns (keys: seq<string>, daily: map<string, seq<Sample>>)
    ensures keys == DayKeys(list)
    ensures forall k :: k in daily <==> k in keys
    ensures forall k :: k in daily ==> daily[k] == SamplesOn(list, k)
  {
    keys := [];
    daily := map[];
    var i := 0;
    while i < |list|
      invariant 0 <= i <= |list|
      invariant Grouped(list[..i], keys, daily)
    {
      var item := list[i];
      var date := Key(item);
      PrefixStep(list, i);
      GroupedStep(list[..i], item, keys, daily);
      var group := [];
      if date in daily {
        group := daily[date];
      } else {
        keys := keys + [date];
      }
      daily := daily[date := group + [item]];
      i := i + 1;
    }
    assert list[..|list|] == list;
  }
}
