/**
 * The earlier slider demo, bokeh-sliders.py: five groups sampled from one
 * normal population, each shown as a bar at its sample mean with a one-sided
 * whisker from the bar top up by the sample standard deviation. No
 * significance tests are run.
 *
 * The module-level lists (`N_array`, `mean_array`, `sem_array`, `x`, `y`,
 * `x_bar`, `y_bar`) are the arrays of a `SliderPlot`. The source keeps no
 * sample; the ghost field `drawn` records the draw each group's entries were
 * computed from, so that the invariant can say what they are.
 */
module SliderSampling {
  import opened Stats

  const GroupCount := 5
  const PopulationSize := 1000
  /** `n`: the size every group is first sampled with. */
  const InitialSize := 2
  /** The value every size slider starts at. */
  const SliderStart := 3
  /** Range of the size sliders. */
  const MinSize := 2
  const MaxSize := 100

  /** What bokeh-sliders.py keeps for one group, read across its lists at one index. */
  datatype Group = Group(n: int, mean: real, sem: real, x: seq<int>, y: seq<real>,
                         xBar: int, yBar: real)

  /**
   * The entries group i gets from a fresh draw of size n; `stdev` is the
   * sample standard deviation, stored as `sem` without dividing by the square
   * root of n.
   */
  function Resampled(i: int, n: int, draw: seq<real>, stdev: seq<real> -> real): (g: Group)
    requires |draw| > 0
    ensures g.n == n
    ensures g.mean == g.yBar == Mean(draw)
    ensures g.sem == stdev(draw)
    ensures g.xBar == i + 1 && g.x == [g.xBar, g.xBar]
    ensures |g.y| == 2 && g.y[0] == g.yBar && g.y[1] - g.y[0] == g.sem
  {
    var m := Mean(draw);
    var e := stdev(draw);
    Group(n, m, e, [i + 1, i + 1], [m, m + e], i + 1, m)
  }

  /**
   * Group i is consistent with `draw` when its size is a slider value, the draw
   * has that size and comes from the population, and every entry is what that
   * draw gives.
   */
  ghost predicate Consistent(i: int, g: Group, draw: seq<real>, population: seq<real>,
                             stdev: seq<real> -> real)
  {
    && MinSize <= g.n <= MaxSize
    && |draw| == g.n && InPopulation(draw, population)
    && g == Resampled(i, g.n, draw, stdev)
  }

  /** A fresh draw of a slider-range size gives a consistent group. */
  lemma ResampledConsistent(i: int, n: int, draw: seq<real>, population: seq<real>,
                            stdev: seq<real> -> real)
    requires MinSize <= n <= MaxSize && |draw| == n && InPopulation(draw, population)
    ensures Consistent(i, Resampled(i, n, draw, stdev), draw, population, stdev)
  {
  }

  /**
   * The bar of a consistent group stands at its sample mean, at x = i + 1,
   * inside the range of the population; the whisker is vertical at the bar's
   * x, starts at the bar top and rises by the standard deviation, so it
   * points up whenever that is not negative.
   */
  lemma GroupGeometry(i: int, g: Group, draw: seq<real>, population: seq<real>,
                      stdev: seq<real> -> real)
    requires Consistent(i, g, draw, population, stdev)
    ensures g.mean == g.yBar == Mean(draw) && g.sem == stdev(draw)
    ensures g.xBar == i + 1 && g.x == [g.xBar, g.xBar]
    ensures |g.y| == 2 && g.y[0] == g.yBar && g.y[1] - g.y[0] == g.sem
    ensures g.sem >= 0.0 ==> g.y[0] <= g.y[1]
    ensures |population| > 0 && MinOf(population) <= g.yBar <= MaxOf(population)
  {
  }

  /** The state of bokeh-sliders.py: the population `s` and the parallel group lists. */
  class SliderPlot {
    /** `s`: 1000 draws from N(2, 1). */
    const s: seq<real>
    /** `statistics.stdev`. */
    const stdev: seq<real> -> real

    const nArray: array<int>
    const meanArray: array<real>
    const semArray: array<real>
    const x: array<seq<int>>
    const y: array<seq<real>>
    const xBar: array<int>
    const yBar: array<real>

    /** The draw behind each group's current entries. */
    ghost var drawn: seq<seq<real>>

    /** Seven lists of length five, no two of them the same list. */
    predicate Shaped()
    {
      && nArray.Length == GroupCount && meanArray.Length == GroupCount
      && semArray.Length == GroupCount && x.Length == GroupCount && y.Length == GroupCount
      && xBar.Length == GroupCount && yBar.Length == GroupCount
      && nArray != xBar
      && meanArray != semArray && meanArray != yBar && semArray != yBar
    }

    /** Group i, read across the parallel lists. */
    function View(i: int): Group
      requires Shaped() && 0 <= i < GroupCount
      reads nArray, meanArray, semArray, x, y, xBar, yBar
    {
      Group(nArray[i], meanArray[i], semArray[i], x[i], y[i], xBar[i], yBar[i])
    }

    ghost predicate Valid()
      reads this, nArray, meanArray, semArray, x, y, xBar, yBar
    {
      && Shaped()
      && |s| == PopulationSize
      && |drawn| == GroupCount
      && forall i :: 0 <= i < GroupCount ==> Consistent(i, View(i), drawn[i], s, stdev)
    }

    /** Module start-up: five groups of size 2, each from its own draw. */
    constructor (s: seq<real>, stdev: seq<real> -> real, draws: seq<seq<real>>)
      requires |s| == PopulationSize
      requires |draws| == GroupCount
      requires forall i :: 0 <= i < GroupCount ==>
                 |draws[i]| == InitialSize && InPopulation(draws[i], s)
      ensures Valid()
      ensures this.s == s && this.stdev == stdev && drawn == draws
      ensures forall i :: 0 <= i < GroupCount ==> View(i) == Resampled(i, InitialSize, draws[i], stdev)
      ensures fresh(nArray) && fresh(meanArray) && fresh(semArray) && fresh(x) && fresh(y)
      ensures fresh(xBar) && fresh(yBar)
    {
      this.s := s;
      this.stdev := stdev;
      nArray := new int[GroupCount](_ => InitialSize);
      meanArray := new real[GroupCount];
      semArray := new real[GroupCount];
      x := new seq<int>[GroupCount];
      y := new seq<real>[GroupCount];
      xBar := new int[GroupCount];
      yBar := new real[GroupCount];
      drawn := draws;
      new;
      ResampleAll(InitialSize, draws);
      forall i | 0 <= i < GroupCount
        ensures Consistent(i, View(i), drawn[i], s, stdev)
      {
        ResampledConsistent(i, InitialSize, draws[i], s, stdev);
      }
    }

    /**
     * Store the mean and standard deviation of the draw, record size n, and
     * rewrite the whisker and the bar of group i.
     */
    method Resample(i: int, n: int, draw: seq<real>)
      requires Shaped() && 0 <= i < GroupCount && |draw| == n && |draw| > 0
      requires |drawn| == GroupCount
      modifies this, nArray, meanArray, semArray, x, y, xBar, yBar
      ensures View(i) == Resampled(i, n, draw, stdev)
      ensures drawn == old(drawn)[i := draw]
      ensures forall k :: 0 <= k < GroupCount && k != i ==> View(k) == old(View(k))
    {
      var sampling := draw;
      meanArray[i] := Mean(sampling);
      semArray[i] := stdev(sampling);
      nArray[i] := n;
      x[i] := [i + 1, i + 1];
      y[i] := [meanArray[i], meanArray[i] + semArray[i]];
      xBar[i] := i + 1;
      yBar[i] := meanArray[i];
      drawn := drawn[i := sampling];
    }

    /** The start-up loop: give every group a fresh draw of size n. */
    method ResampleAll(n: int, draws: seq<seq<real>>)
      requires Shaped() && n > 0 && drawn == draws
      requires |draws| == GroupCount
      requires forall i :: 0 <= i < GroupCount ==> |draws[i]| == n
      modifies this, nArray, meanArray, semArray, x, y, xBar, yBar
      ensures drawn == draws
      ensures forall i :: 0 <= i < GroupCount ==> View(i) == Resampled(i, n, draws[i], stdev)
    {
      for i := 0 to GroupCount
        invariant drawn == draws
        invariant forall k :: 0 <= k < i ==> View(k) == Resampled(k, n, draws[k], stdev)
      {
        Resample(i, n, draws[i]);
      }
    }

    /**
     * The loop of `update_data`: resample exactly the groups whose slider
     * value differs from their recorded size; every other group keeps all its
     * entries and its draw.
     */
    method ResampleChanged(sliders: seq<int>, draws: seq<seq<real>>)
      requires Shaped() && |drawn| == GroupCount
      requires |sliders| == GroupCount && |draws| == GroupCount
      requires forall i :: 0 <= i < GroupCount && nArray[i] != sliders[i] ==>
                 |draws[i]| == sliders[i] && sliders[i] > 0
      modifies this, nArray, meanArray, semArray, x, y, xBar, yBar
      ensures nArray[..] == sliders && |drawn| == GroupCount
      ensures forall i :: 0 <= i < GroupCount ==>
                && View(i) == (if old(nArray[i]) == sliders[i] then old(View(i))
                               else Resampled(i, sliders[i], draws[i], stdev))
                && drawn[i] == (if old(nArray[i]) == sliders[i] then old(drawn[i]) else draws[i])
    {
      for i := 0 to GroupCount
        invariant |drawn| == GroupCount
        invariant forall k :: i <= k < GroupCount ==> View(k) == old(View(k)) && drawn[k] == old(drawn[k])
        invariant forall k :: 0 <= k < i ==> nArray[k] == sliders[k]
        invariant forall k :: 0 <= k < i ==>
                    && View(k) == (if old(nArray[k]) == sliders[k] then old(View(k))
                                   else Resampled(k, sliders[k], draws[k], stdev))
                    && drawn[k] == (if old(nArray[k]) == sliders[k] then old(drawn[k]) else draws[k])
      {
        if nArray[i] != sliders[i] {
          assert View(i) == old(View(i));
          Resample(i, sliders[i], draws[i]);
        }
      }
    }

    /**
     * `update_data`: resample exactly the groups whose slider value differs
     * from their recorded size. `draws[i]` is the draw for group i; it is used
     * only when that group is resampled.
     */
    method UpdateData(sliders: seq<int>, draws: seq<seq<real>>)
      requires Valid()
      requires |sliders| == GroupCount && |draws| == GroupCount
      requires forall i :: 0 <= i < GroupCount ==> MinSize <= sliders[i] <= MaxSize
      requires forall i :: 0 <= i < GroupCount && nArray[i] != sliders[i] ==>
                 |draws[i]| == sliders[i] && InPopulation(draws[i], s)
      modifies this, nArray, meanArray, semArray, x, y, xBar, yBar
      ensures Valid()
      ensures nArray[..] == sliders
      ensures forall i :: 0 <= i < GroupCount ==>
                && View(i) == (if old(nArray[i]) == sliders[i] then old(View(i))
                               else Resampled(i, sliders[i], draws[i], stdev))
                && drawn[i] == (if old(nArray[i]) == sliders[i] then old(drawn[i]) else draws[i])
    {
      ResampleChanged(sliders, draws);
      forall i | 0 <= i < GroupCount
        ensures Consistent(i, View(i), drawn[i], s, stdev)
      {
        if old(nArray[i]) != sliders[i] {
          ResampledConsistent(i, sliders[i], draws[i], s, stdev);
        }
      }
    }
  }

  /**
   * The first slider event after start-up moves slider k from 3 to v. Every
   * other slider still reads 3 while every group was sampled with size 2, so
   * those four groups are all resampled with size 3; group k is resampled
   * with size v unless v is 2, in which case it keeps its first sample.
   */
  method FirstSliderEvent(s: seq<real>, stdev: seq<real> -> real, initialDraws: seq<seq<real>>,
                          k: int, v: int, draws: seq<seq<real>>)
    returns (p: SliderPlot)
    requires |s| == PopulationSize
    requires |initialDraws| == GroupCount
    requires forall i :: 0 <= i < GroupCount ==>
               |initialDraws[i]| == InitialSize && InPopulation(initialDraws[i], s)
    requires 0 <= k < GroupCount && MinSize <= v <= MaxSize && v != SliderStart
    requires |draws| == GroupCount
    requires forall i :: 0 <= i < GroupCount && (i != k || v != InitialSize) ==>
               |draws[i]| == (if i == k then v else SliderStart) && InPopulation(draws[i], s)
    ensures p.Valid()
    ensures forall i :: 0 <= i < GroupCount ==> p.nArray[i] == if i == k then v else SliderStart
    ensures forall i :: 0 <= i < GroupCount && i != k ==>
              p.View(i) == Resampled(i, SliderStart, draws[i], stdev)
    ensures p.View(k) == if v == InitialSize then Resampled(k, InitialSize, initialDraws[k], stdev)
                         else Resampled(k, v, draws[k], stdev)
  {
    p := new SliderPlot(s, stdev, initialDraws);
    var sliders := seq(GroupCount, i => if i == k then v else SliderStart);
    forall i | 0 <= i < GroupCount
      ensures p.nArray[i] == InitialSize
    {
      assert p.View(i).n == InitialSize;
    }
    p.UpdateData(sliders, draws);
  }
}
