/**
 The saved-city list as an ordered sequence of names, and the one list
 operation both the weather card and the home page use to forget a city:
 `list.filter((c) => c !== name)`, which compares names by exact string
 equality.
 */
module CityList {
  import opened Common

  /** The list with every occurrence of `name` removed, the others kept in order. */
  function Without(xs: seq<string>, name: string): (r: seq<string>)
    ensures forall c :: c in r <==> c in xs && c != name
  {
    if xs == [] then []
    else
      assert xs == [xs[0]] + xs[1..];
      (if xs[0] == name then [] else [xs[0]]) + Without(xs[1..], name)
  }

  /** Every other name survives as often as it occurs, and `name` not at all,
      so the list shrinks by exactly the occurrences of `name`. */
  lemma {:induction false} WithoutCounts(xs: seq<string>, name: string)
    ensures forall c :: multiset(Without(xs, name))[c] == if c == name then 0 else multiset(xs)[c]
    ensures |Without(xs, name)| == |xs| - multiset(xs)[name]
  {
    if xs != [] {
      assert xs == [xs[0]] + xs[1..];
      WithoutCounts(xs[1..], name);
    }
  }

  /** Filtering commutes with concatenation: the survivors of an earlier part
      of the list stay ahead of the survivors of a later part. */
  lemma {:induction false} WithoutAppend(xs: seq<string>, ys: seq<string>, name: string)
    ensures Without(xs + ys, name) == Without(xs, name) + Without(ys, name)
  {
    if xs == [] {
      assert xs + ys == ys;
    } else {
      assert (xs + ys)[0] == xs[0];
      assert (xs + ys)[1..] == xs[1..] + ys;
      WithoutAppend(xs[1..], ys, name);
    }
  }

  /** Removing a name the list does not hold gives back an equal list. */
  lemma {:induction false} WithoutAbsent(xs: seq<string>, name: string)
    requires name !in xs
    ensures Without(xs, name) == xs
  {
    if xs != [] {
      assert xs == [xs[0]] + xs[1..];
      WithoutAbsent(xs[1..], name);
    }
  }

  /** Removing a name keeps a duplicate-free list duplicate-free. */
  lemma {:induction false} WithoutKeepsDistinct(xs: seq<string>, name: string)
    requires Distinct(xs)
    ensures Distinct(Without(xs, name))
  {
    if xs != [] {
      var rest := xs[1..];
      assert Distinct(rest) by {
        forall i, j | 0 <= i < j < |rest|
          ensures rest[i] != rest[j]
        {
          assert rest[i] == xs[i + 1] && rest[j] == xs[j + 1];
        }
      }
      WithoutKeepsDistinct(rest, name);
      var tail := Without(rest, name);
      if xs[0] != name {
        assert xs[0] !in rest by {
          forall j | 0 <= j < |rest|
            ensures rest[j] != xs[0]
          {
            assert rest[j] == xs[j + 1];
          }
        }
        assert xs[0] !in tail;
        var r := [xs[0]] + tail;
        forall i, j | 0 <= i < j < |r|
          ensures r[i] != r[j]
        {
          if i == 0 {
            assert r[j] == tail[j - 1];
          } else {
            assert r[i] == tail[i - 1] && r[j] == tail[j - 1];
          }
        }
      }
    }
  }

  /** Appending a name the list does not hold keeps it duplicate-free. */
  lemma AppendKeepsDistinct(xs: seq<string>, name: string)
    requires Distinct(xs) && name !in xs
    ensures Distinct(xs + [name])
  {
    var r := xs + [name];
    forall i, j | 0 <= i < j < |r|
      ensures r[i] != r[j]
    {
      if j == |xs| {
        assert r[i] == xs[i];
      } else {
        assert r[i] == xs[i] && r[j] == xs[j];
      }
    }
  }
}
