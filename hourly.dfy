/** The `Hourly` component of src/App.js: it keeps the entries of the hourly
    series whose index is even and below 12 (six samples, two hours apart,
    over the next twelve hours) and draws each kept entry's glyph. */
module HourlyForecast {
  import opened Wrappers
  import opened Icons

  /** One entry of the provider's hourly series. */
  datatype HourPoint = HourPoint(time: int, icon: string, temperature: real)

  /** One drawn cell: the entry's timestamp and its glyph. */
  datatype HourCell = HourCell(time: int, glyph: Option<Glyph>)

  /** The filter predicate `!(index % 2) && index < 12`. */
  predicate KeepIndex(index: nat) {
    index % 2 == 0 && index < 12
  }

  function Min(a: int, b: int): int {
    if a < b then a else b
  }

  /** The number of kept indices at or after the even index `i` in a series of
      length `n`. */
  function Remaining(n: nat, i: nat): nat {
    if Min(n, 12) <= i then 0 else (Min(n, 12) - i + 1) / 2
  }

  /** The number of entries the sampler keeps from a series of length `n`. */
  function SampleCount(n: nat): nat {
    Remaining(n, 0)
  }

  /** The `filter` over the series, visited from index `i` onward. */
  function FilterFrom<T>(s: seq<T>, i: nat): seq<T>
    decreases |s| - i
  {
    if i >= |s| then []
    else (if KeepIndex(i) then [s[i]] else []) + FilterFrom(s, i + 1)
  }

  /** Nothing is kept from index 12 onward. */
  lemma {:induction false} FilterFromBeyond<T>(s: seq<T>, i: nat)
    requires i >= 12
    ensures FilterFrom(s, i) == []
    decreases |s| - i
  {
    if i < |s| {
      FilterFromBeyond(s, i + 1);
    }
  }

  /** From an even index `i`, the filter keeps the entries at `i`, `i + 2`, …
      below 12 and below the end of the series. */
  lemma {:induction false} FilterFromEven<T>(s: seq<T>, i: nat)
    requires i % 2 == 0
    ensures |FilterFrom(s, i)| == Remaining(|s|, i)
    ensures forall k :: 0 <= k < |FilterFrom(s, i)| ==> i + 2 * k < |s| && FilterFrom(s, i)[k] == s[i + 2 * k]
    decreases |s| - i
  {
    if i >= |s| {
    } else if i >= 12 {
      FilterFromBeyond(s, i);
    } else if i + 1 == |s| {
      assert FilterFrom(s, i + 1) == [];
      assert FilterFrom(s, i) == [s[i]];
    } else {
      assert FilterFrom(s, i + 1) == FilterFrom(s, i + 2);
      FilterFromEven(s, i + 2);
      var rest := FilterFrom(s, i + 2);
      assert FilterFrom(s, i) == [s[i]] + rest;
      forall k | 0 <= k < |FilterFrom(s, i)|
        ensures i + 2 * k < |s| && FilterFrom(s, i)[k] == s[i + 2 * k]
      {
        if k > 0 {
          assert FilterFrom(s, i)[k] == rest[k - 1];
        }
      }
    }
  }

  /** The sampler of `Hourly`: the entries at even indices below 12, in order.
      Entry `k` of the result is entry `2 * k` of the series; there are at most
      six, and exactly six once the series has at least eleven entries. */
  function SampleHourly<T>(s: seq<T>): (r: seq<T>)
    ensures |r| == SampleCount(|s|)
    ensures |r| <= 6
    ensures |s| >= 11 ==> |r| == 6
    ensures forall k :: 0 <= k < |r| ==> 2 * k < |s| && r[k] == s[2 * k]
  {
    FilterFromEven(s, 0);
    FilterFrom(s, 0)
  }

  /** The sampler keeps an entry exactly when its index is even and below 12:
      such an entry sits at half its index in the result, and every entry of the
      result comes from such an index. */
  lemma SampleHourlyKeepsExactly<T>(s: seq<T>, i: nat)
    requires i < |s|
    ensures KeepIndex(i) <==> i % 2 == 0 && i / 2 < |SampleHourly(s)|
    ensures KeepIndex(i) ==> SampleHourly(s)[i / 2] == s[i]
  {
  }

  /** The cells `Hourly` draws: for each sampled entry, its timestamp and the
      glyph `tern` gives its condition code. */
  function Hourly(hourlyData: seq<HourPoint>): (cells: seq<HourCell>)
    ensures |cells| == SampleCount(|hourlyData|)
    ensures |cells| <= 6
    ensures |hourlyData| >= 11 ==> |cells| == 6
    ensures forall k :: 0 <= k < |cells| ==>
      2 * k < |hourlyData| && cells[k] == HourCell(hourlyData[2 * k].time, Tern(hourlyData[2 * k].icon))
  {
    var kept := SampleHourly(hourlyData);
    seq(|kept|, k requires 0 <= k < |kept| => HourCell(kept[k].time, Tern(kept[k].icon)))
  }
}
