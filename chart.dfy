/** `ChartDataManager`: the four live chart series (CPU, memory, disk,
    network). Each update drops the oldest point once a series holds more
    than `MaxPoints` values and then appends the new one, so a series
    settles at `MaxPoints + 1` points. */
module Chart {
  import opened Common

  const MaxPoints: int := 60

  /** The most points a series ever holds: the length test runs before the
      append, so a series of exactly `MaxPoints` values still grows by one. */
  const Capacity: int := MaxPoints + 1

  /** The values of one series after `UpdateSeries(series, v)`: `v` is the
      newest point, the older points keep their order and only the oldest
      point may be lost, and only when the series already held more than
      `MaxPoints` values. */
  function Pushed<T>(values: seq<T>, v: T): (r: seq<T>)
    ensures |r| == (if |values| > MaxPoints then |values| else |values| + 1)
    ensures r[|r| - 1] == v
  {
    if |values| > MaxPoints then values[1..] + [v] else values + [v]
  }

  /** The points before the new one are the old points in their order,
      less the oldest one when the series was already over `MaxPoints`. */
  lemma PushedKeepsOlder<T>(values: seq<T>, v: T)
    ensures var r := Pushed(values, v); r[..|r| - 1] == values[|values| + 1 - |r|..]
  {
  }

  lemma PushedLength<T>(values: seq<T>, v: T)
    ensures |Pushed(values, v)| == (if |values| > MaxPoints then |values| else |values| + 1)
  {
  }

  /** The series after pushing every value of `vs`, oldest first. */
  function PushAll<T>(start: seq<T>, vs: seq<T>): seq<T> {
    if vs == [] then start else Pushed(PushAll(start, vs[..|vs| - 1]), vs[|vs| - 1])
  }

  /** The series after the same value `v` is pushed `k` times, as when one
      sample reaches `k` subscribed handlers. */
  function PushRepeat<T>(start: seq<T>, v: T, k: nat): seq<T> {
    if k == 0 then start else Pushed(PushRepeat(start, v, k - 1), v)
  }

  /** Pushing `v` `k` times is pushing the `k` values of a constant
      sequence. */
  lemma {:induction false} PushRepeatIsPushAll<T>(start: seq<T>, v: T, k: nat)
    ensures PushRepeat(start, v, k) == PushAll(start, seq(k, _ => v))
  {
    if k > 0 {
      PushRepeatIsPushAll(start, v, k - 1);
      assert seq(k, _ => v)[..k - 1] == seq(k - 1, _ => v);
    }
  }

  function Min(a: int, b: int): int {
    if a <= b then a else b
  }

  /** A series that starts within `Capacity` points stays within it. */
  lemma {:induction false} PushAllBounded<T>(start: seq<T>, vs: seq<T>)
    requires |start| <= Capacity
    ensures |PushAll(start, vs)| <= Capacity
  {
    if vs != [] {
      PushAllBounded(start, vs[..|vs| - 1]);
    }
  }

  /** Pushing onto a full window of the newest `Capacity` values gives the
      newest `Capacity` values of the longer sequence. */
  lemma PushedWindow<T>(init: seq<T>, v: T)
    requires |init| >= Capacity
    ensures Pushed(init[|init| - Capacity..], v) == (init + [v])[|init| + 1 - Capacity..]
  {
    var w := init[|init| - Capacity..];
    assert Pushed(w, v) == w[1..] + [v];
    SlideWindow(init, v, Capacity);
  }

  /** One push keeps the window of newest values: if the series holds the
      newest values of all but the last of `vs`, pushing the last gives the
      newest values of `vs`. */
  lemma PushedKeepsNewest<T>(vs: seq<T>, before: seq<T>)
    requires vs != []
    requires before == vs[..|vs| - 1][|vs| - 1 - Min(|vs| - 1, Capacity)..]
    ensures Pushed(before, vs[|vs| - 1]) == vs[|vs| - Min(|vs|, Capacity)..]
  {
    var init := vs[..|vs| - 1];
    var v := vs[|vs| - 1];
    if |init| <= MaxPoints {
      assert Pushed(before, v) == vs by {
        assert before == init;
        assert vs == init + [v];
      }
      assert vs[|vs| - Min(|vs|, Capacity)..] == vs;
    } else {
      assert Pushed(before, v) == vs[|vs| - Capacity..] by {
        PushedWindow(init, v);
        assert vs == init + [v];
      }
    }
  }

  /** Starting from an empty series, the chart shows exactly the newest
      `Capacity` values pushed (all of them while there are fewer), in
      arrival order. */
  lemma {:induction false} PushAllFromEmpty<T>(vs: seq<T>)
    ensures PushAll<T>([], vs) == vs[|vs| - Min(|vs|, Capacity)..]
  {
    if vs != [] {
      PushAllFromEmpty(vs[..|vs| - 1]);
      PushedKeepsNewest(vs, PushAll<T>([], vs[..|vs| - 1]));
    }
  }

  /** An `ObservableCollection<double>` of chart points. */
  class Series {
    var items: seq<Float>

    constructor ()
      ensures items == []
    {
      items := [];
    }

    /** `Count`. */
    function Count(): (n: nat)
      reads this
      ensures n == |items|
    {
      |items|
    }

    /** `RemoveAt(index)`. */
    method RemoveAt(index: int)
      requires 0 <= index < |items|
      modifies this
      ensures items == old(items[..index] + items[index + 1..])
    {
      items := items[..index] + items[index + 1..];
    }

    /** `Add(value)`. */
    method Add(value: Float)
      modifies this
      ensures items == old(items) + [value]
    {
      items := items + [value];
    }
  }

  class ChartDataManager {
    const cpuValues: Series
    const memoryValues: Series
    const diskValues: Series
    const networkValues: Series

    /** The four series are distinct collections. */
    predicate Valid() {
      && cpuValues != memoryValues && cpuValues != diskValues && cpuValues != networkValues
      && memoryValues != diskValues && memoryValues != networkValues
      && diskValues != networkValues
    }

    /** The four series hold the same number of points. */
    predicate Aligned()
      reads cpuValues, memoryValues, diskValues, networkValues
    {
      && |cpuValues.items| == |memoryValues.items|
      && |cpuValues.items| == |diskValues.items|
      && |cpuValues.items| == |networkValues.items|
    }

    /** Every series is within `Capacity` points. */
    predicate Bounded()
      reads cpuValues, memoryValues, diskValues, networkValues
    {
      && |cpuValues.items| <= Capacity && |memoryValues.items| <= Capacity
      && |diskValues.items| <= Capacity && |networkValues.items| <= Capacity
    }

    constructor ()
      ensures Valid() && Aligned() && Bounded()
      ensures fresh(cpuValues) && fresh(memoryValues) && fresh(diskValues) && fresh(networkValues)
      ensures cpuValues.items == [] && memoryValues.items == []
      ensures diskValues.items == [] && networkValues.items == []
    {
      cpuValues := new Series();
      memoryValues := new Series();
      diskValues := new Series();
      networkValues := new Series();
    }

    /** `UpdateSeries`: trims the oldest point when the series holds more
        than `MaxPoints` values, then appends. */
    method UpdateSeries(series: Series, value: Float)
      modifies series
      ensures series.items == Pushed(old(series.items), value)
    {
      if series.Count() > MaxPoints {
        series.RemoveAt(0);
      }
      series.Add(value);
    }

    /** `Update`: one new point on each of the four series. */
    method Update(cpu: Float, memory: Float, disk: Float, network: Float)
      requires Valid()
      modifies cpuValues, memoryValues, diskValues, networkValues
      ensures cpuValues.items == Pushed(old(cpuValues.items), cpu)
      ensures memoryValues.items == Pushed(old(memoryValues.items), memory)
      ensures diskValues.items == Pushed(old(diskValues.items), disk)
      ensures networkValues.items == Pushed(old(networkValues.items), network)
      ensures old(Aligned()) ==> Aligned()
      ensures old(Bounded()) ==> Bounded()
    {
      ghost var c, m, d, n := cpuValues.items, memoryValues.items, diskValues.items, networkValues.items;
      UpdateSeries(cpuValues, cpu);
      UpdateSeries(memoryValues, memory);
      UpdateSeries(diskValues, disk);
      UpdateSeries(networkValues, network);
      assert cpuValues.items == Pushed(c, cpu) && memoryValues.items == Pushed(m, memory);
      assert diskValues.items == Pushed(d, disk) && networkValues.items == Pushed(n, network);
      PushedLength(c, cpu);
      PushedLength(m, memory);
      PushedLength(d, disk);
      PushedLength(n, network);
    }
  }
}
