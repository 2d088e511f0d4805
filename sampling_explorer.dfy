/**
 * The statistical sampling explorer of app.py: five groups, each a sample
 * drawn from one normal population, shown as a bar at the sample mean with a
 * whisker of plus or minus one standard error; groups 0..3 are tested against
 * group 4 with three two-sided tests, and every significant result puts a
 * marker above the highest bar.
 *
 * The module-level lists of app.py (`N_array`, `samples`, `mean_array`,
 * `sem_array`, `x_bar`, `y_bar`, `x_err`, `y_err`) are the arrays of an
 * `Explorer`. The random draws are inputs; the standard error and the three
 * p-values are functions the explorer is built with.
 */
module SamplingExplorer {
  import opened Stats

  const GroupCount := 5
  /** Index of the group every other group is tested against (`samples[4]`). */
  const Reference := 4
  const PopulationSize := 1000
  /** `initial_n`: every group's size, and every slider's value, at start. */
  const InitialN := 5
  /** Range of the size sliders. */
  const MinSize := 2
  const MaxSize := 100
  const Alpha := 0.05
  /** Height of a marker that is not shown: below the plotted y-range. */
  const Hidden := -10.0
  const TTestOffset := 0.5
  const MannWhitneyOffset := 0.8
  const RankSumsOffset := 1.1

  /** A two-sample test, reduced to the p-value it reports. */
  type PTest = (seq<real>, seq<real>) -> real

  /** `ttest_ind`, `mannwhitneyu(..., alternative='two-sided')` and `ranksums`. */
  datatype PTests = PTests(tTest: PTest, mannWhitney: PTest, rankSums: PTest)

  /** One entry of `p_values`. */
  datatype PValues = PValues(tTest: real, mannWhitney: real, rankSums: real)

  /**
   * One entry of `p_values`: each of the three tests applied to the pair in
   * the source's argument order, the comparison sample first and the
   * reference sample second.
   */
  function PValuesOf(sample: seq<real>, reference: seq<real>, tests: PTests): PValues
  {
    PValues(tests.tTest(sample, reference), tests.mannWhitney(sample, reference),
            tests.rankSums(sample, reference))
  }

  /** Height of one significance marker: above the highest bar when p < 0.05. */
  function Marker(p: real, top: real, offset: real): (r: real)
    ensures !(p < Alpha) ==> r == Hidden
    ensures r != Hidden ==> p < Alpha && r - top == offset
    ensures p < Alpha && offset > 0.0 ==> top < r
  {
    if p < Alpha then top + offset else Hidden
  }

  /**
   * The three marker rows hold, for each comparison group j in 0..3, the
   * marker of each test of `samples[j]` against `samples[4]`, placed relative
   * to the highest bar.
   */
  predicate MarkersCurrent(signifT: seq<real>, signifM: seq<real>, signifR: seq<real>,
                           samples: seq<seq<real>>, bars: seq<real>, tests: PTests)
  {
    && |samples| == GroupCount && |bars| > 0
    && |signifT| == Reference && |signifM| == Reference && |signifR| == Reference
    && forall j :: 0 <= j < Reference ==>
         var p := PValuesOf(samples[j], samples[Reference], tests);
         && signifT[j] == Marker(p.tTest, MaxOf(bars), TTestOffset)
         && signifM[j] == Marker(p.mannWhitney, MaxOf(bars), MannWhitneyOffset)
         && signifR[j] == Marker(p.rankSums, MaxOf(bars), RankSumsOffset)
  }

  /** `calc_significance`: test groups 0..3 against group 4 and place the markers. */
  method CalcSignificance(samples: seq<seq<real>>, bars: seq<real>, tests: PTests)
    returns (signifT: seq<real>, signifM: seq<real>, signifR: seq<real>, pValues: seq<PValues>)
    requires |samples| == GroupCount && |bars| == GroupCount
    ensures MarkersCurrent(signifT, signifM, signifR, samples, bars, tests)
    ensures |pValues| == Reference
    ensures forall j :: 0 <= j < Reference ==>
              pValues[j] == PValuesOf(samples[j], samples[Reference], tests)
  {
    signifT, signifM, signifR, pValues := [], [], [], [];
    for j := 0 to Reference
      invariant |signifT| == j && |signifM| == j && |signifR| == j && |pValues| == j
      invariant forall k :: 0 <= k < j ==>
                  && pValues[k] == PValuesOf(samples[k], samples[Reference], tests)
                  && signifT[k] == Marker(pValues[k].tTest, MaxOf(bars), TTestOffset)
                  && signifM[k] == Marker(pValues[k].mannWhitney, MaxOf(bars), MannWhitneyOffset)
                  && signifR[k] == Marker(pValues[k].rankSums, MaxOf(bars), RankSumsOffset)
    {
      var pT := tests.tTest(samples[j], samples[Reference]);
      var pM := tests.mannWhitney(samples[j], samples[Reference]);
      var pR := tests.rankSums(samples[j], samples[Reference]);
      pValues := pValues + [PValues(pT, pM, pR)];
      signifT := signifT + [Marker(pT, MaxOf(bars), TTestOffset)];
      signifM := signifM + [Marker(pM, MaxOf(bars), MannWhitneyOffset)];
      signifR := signifR + [Marker(pR, MaxOf(bars), RankSumsOffset)];
    }
  }

  /**
   * The marker threshold: a p-value that is not strictly below 0.05 hides the
   * marker; a smaller one places it strictly above every bar. Hidden exactly
   * when not significant, unless the shown height happens to equal -10.
   */
  lemma MarkerRule(p: real, bars: seq<real>, offset: real)
    requires |bars| > 0 && offset > 0.0
    ensures !(p < Alpha) ==> Marker(p, MaxOf(bars), offset) == Hidden
    ensures p < Alpha ==> forall k :: 0 <= k < |bars| ==> bars[k] < Marker(p, MaxOf(bars), offset)
    ensures MaxOf(bars) + offset != Hidden ==>
              (Marker(p, MaxOf(bars), offset) == Hidden <==> !(p < Alpha))
  {
  }

  /**
   * Every marker that is shown (its height is not -10) sits strictly above
   * every bar top, and when all three tests are significant for a group their
   * markers are stacked t-test, Mann-Whitney, rank-sum from bottom to top.
   */
  lemma ShownMarkersAboveBars(signifT: seq<real>, signifM: seq<real>, signifR: seq<real>,
                              samples: seq<seq<real>>, bars: seq<real>, tests: PTests, j: int)
    requires MarkersCurrent(signifT, signifM, signifR, samples, bars, tests)
    requires 0 <= j < Reference
    ensures signifT[j] != Hidden ==> forall k :: 0 <= k < |bars| ==> bars[k] < signifT[j]
    ensures signifM[j] != Hidden ==> forall k :: 0 <= k < |bars| ==> bars[k] < signifM[j]
    ensures signifR[j] != Hidden ==> forall k :: 0 <= k < |bars| ==> bars[k] < signifR[j]
    ensures signifT[j] != Hidden && signifM[j] != Hidden && signifR[j] != Hidden ==>
              signifT[j] < signifM[j] < signifR[j]
  {
  }

  /** What app.py keeps for one group, read across its parallel lists at one index. */
  datatype Group = Group(n: int, sample: seq<real>, mean: real, sem: real,
                         xBar: int, yBar: real, xErr: seq<int>, yErr: seq<real>)

  /** The entries group i gets from a fresh draw of size n (app.py's loop body). */
  function Resampled(i: int, n: int, draw: seq<real>, semOf: seq<real> -> real): (g: Group)
    requires |draw| > 0
    ensures g.n == n && g.sample == draw
    ensures g.mean == g.yBar == Mean(draw)
    ensures g.sem == semOf(draw)
    ensures g.xBar == i + 1 && g.xErr == [g.xBar, g.xBar]
    ensures |g.yErr| == 2 && g.yErr[0] + g.yErr[1] == 2.0 * g.yBar
    ensures g.yErr[1] - g.yErr[0] == 2.0 * g.sem
  {
    var m := Mean(draw);
    var e := semOf(draw);
    Group(n, draw, m, e, i + 1, m, [i + 1, i + 1], [m - e, m + e])
  }

  /**
   * Group i is consistent when its size is a slider value, its sample is a draw
   * of that size from the population, and every other entry is what that
   * sample gives.
   */
  ghost predicate Consistent(i: int, g: Group, population: seq<real>, semOf: seq<real> -> real)
  {
    && MinSize <= g.n <= MaxSize
    && |g.sample| == g.n && InPopulation(g.sample, population)
    && g == Resampled(i, g.n, g.sample, semOf)
  }

  /** A fresh draw of a slider-range size gives a consistent group. */
  lemma ResampledConsistent(i: int, n: int, draw: seq<real>, population: seq<real>,
                            semOf: seq<real> -> real)
    requires MinSize <= n <= MaxSize && |draw| == n && InPopulation(draw, population)
    ensures Consistent(i, Resampled(i, n, draw, semOf), population, semOf)
  {
  }

  /**
   * The bar of a consistent group stands at its sample mean, at x = i + 1,
   * inside the range of the population; its whisker is vertical at the bar's
   * x, centred on the bar top, and spans the bar top when the SEM is not
   * negative.
   */
  lemma GroupGeometry(i: int, g: Group, population: seq<real>, semOf: seq<real> -> real)
    requires Consistent(i, g, population, semOf)
    ensures g.mean == g.yBar == Mean(g.sample) && g.sem == semOf(g.sample)
    ensures g.xBar == i + 1 && g.xErr == [g.xBar, g.xBar]
    ensures |g.yErr| == 2 && g.yErr[0] + g.yErr[1] == 2.0 * g.yBar
    ensures g.yErr[1] - g.yErr[0] == 2.0 * g.sem
    ensures g.sem >= 0.0 ==> g.yErr[0] <= g.yBar <= g.yErr[1]
    ensures |population| > 0 && MinOf(population) <= g.yBar <= MaxOf(population)
  {
  }

  /** The state of app.py: the population, the parallel group lists and the marker rows. */
  class Explorer {
    /** `population`: 1000 draws from N(2, 1). */
    const population: seq<real>
    /** `stdev(sample) / sqrt(len(sample))`. */
    const semOf: seq<real> -> real
    const tests: PTests

    const nArray: array<int>
    const samples: array<seq<real>>
    const meanArray: array<real>
    const semArray: array<real>
    const xBar: array<int>
    const yBar: array<real>
    const xErr: array<seq<int>>
    const yErr: array<seq<real>>

    /** The y columns of the three marker sources (t-test, Mann-Whitney, rank-sum). */
    var markersT: seq<real>
    var markersM: seq<real>
    var markersR: seq<real>

    /** Eight lists of length five, no two of them the same list. */
    predicate Shaped()
    {
      && nArray.Length == GroupCount && samples.Length == GroupCount
      && meanArray.Length == GroupCount && semArray.Length == GroupCount
      && xBar.Length == GroupCount && yBar.Length == GroupCount
      && xErr.Length == GroupCount && yErr.Length == GroupCount
      && nArray != xBar && samples != yErr
      && meanArray != semArray && meanArray != yBar && semArray != yBar
    }

    /** Group i, read across the parallel lists. */
    function View(i: int): Group
      requires Shaped() && 0 <= i < GroupCount
      reads nArray, samples, meanArray, semArray, xBar, yBar, xErr, yErr
    {
      Group(nArray[i], samples[i], meanArray[i], semArray[i], xBar[i], yBar[i], xErr[i], yErr[i])
    }

    /** Every group's entries are what its current sample gives. */
    ghost predicate GroupsConsistent()
      reads nArray, samples, meanArray, semArray, xBar, yBar, xErr, yErr
    {
      && Shaped()
      && forall i :: 0 <= i < GroupCount ==> Consistent(i, View(i), population, semOf)
    }

    ghost predicate Valid()
      reads this, nArray, samples, meanArray, semArray, xBar, yBar, xErr, yErr
    {
      && GroupsConsistent()
      && |population| == PopulationSize
      && MarkersCurrent(markersT, markersM, markersR, samples[..], yBar[..], tests)
    }

    /** Module start-up: five groups of `initial_n`, then the first significance pass. */
    constructor (population: seq<real>, semOf: seq<real> -> real, tests: PTests,
                 draws: seq<seq<real>>)
      requires |population| == PopulationSize
      requires |draws| == GroupCount
      requires forall i :: 0 <= i < GroupCount ==>
                 |draws[i]| == InitialN && InPopulation(draws[i], population)
      ensures Valid()
      ensures this.population == population && this.semOf == semOf && this.tests == tests
      ensures forall i :: 0 <= i < GroupCount ==> View(i) == Resampled(i, InitialN, draws[i], semOf)
      ensures fresh(nArray) && fresh(samples) && fresh(meanArray) && fresh(semArray)
      ensures fresh(xBar) && fresh(yBar) && fresh(xErr) && fresh(yErr)
    {
      this.population := population;
      this.semOf := semOf;
      this.tests := tests;
      nArray := new int[GroupCount](_ => InitialN);
      samples := new seq<real>[GroupCount];
      meanArray := new real[GroupCount];
      semArray := new real[GroupCount];
      xBar := new int[GroupCount];
      yBar := new real[GroupCount];
      xErr := new seq<int>[GroupCount];
      yErr := new seq<real>[GroupCount];
      new;
      ResampleAll(InitialN, draws);
      var pValues;
      markersT, markersM, markersR, pValues := CalcSignificance(samples[..], yBar[..], tests);
      forall i | 0 <= i < GroupCount
        ensures Consistent(i, View(i), population, semOf)
      {
        ResampledConsistent(i, InitialN, draws[i], population, semOf);
      }
    }

    /**
     * Record size n for group i and store the draw, its mean and SEM, the bar
     * and the whisker: the body of the start-up loop, and of `update_data`'s
     * loop for a group whose size changed.
     */
    method Resample(i: int, n: int, draw: seq<real>)
      requires Shaped() && 0 <= i < GroupCount && |draw| == n && |draw| > 0
      modifies nArray, samples, meanArray, semArray, xBar, yBar, xErr, yErr
      ensures View(i) == Resampled(i, n, draw, semOf)
      ensures forall k :: 0 <= k < GroupCount && k != i ==> View(k) == old(View(k))
    {
      nArray[i] := n;
      var sampling := draw;
      samples[i] := sampling;
      var sampleMean := Mean(sampling);
      var sampleSem := semOf(sampling);
      meanArray[i] := sampleMean;
      semArray[i] := sampleSem;
      xBar[i] := i + 1;
      yBar[i] := sampleMean;
      xErr[i] := [i + 1, i + 1];
      yErr[i] := [sampleMean - sampleSem, sampleMean + sampleSem];
    }

    /** The start-up loop: give every group a fresh draw of size n. */
    method ResampleAll(n: int, draws: seq<seq<real>>)
      requires Shaped() && n > 0
      requires |draws| == GroupCount
      requires forall i :: 0 <= i < GroupCount ==> |draws[i]| == n
      modifies nArray, samples, meanArray, semArray, xBar, yBar, xErr, yErr
      ensures forall i :: 0 <= i < GroupCount ==> View(i) == Resampled(i, n, draws[i], semOf)
    {
      for i := 0 to GroupCount
        invariant forall k :: 0 <= k < i ==> View(k) == Resampled(k, n, draws[k], semOf)
      {
        Resample(i, n, draws[i]);
      }
    }

    /**
     * The loop of `update_data`: resample exactly the groups whose slider
     * value differs from their recorded size; every other group keeps all its
     * entries.
     */
    method ResampleChanged(sliders: seq<int>, draws: seq<seq<real>>)
      requires Shaped()
      requires |sliders| == GroupCount && |draws| == GroupCount
      requires forall i :: 0 <= i < GroupCount && nArray[i] != sliders[i] ==>
                 |draws[i]| == sliders[i] && sliders[i] > 0
      modifies nArray, samples, meanArray, semArray, xBar, yBar, xErr, yErr
      ensures nArray[..] == sliders
      ensures forall i :: 0 <= i < GroupCount ==>
                View(i) == if old(nArray[i]) == sliders[i] then old(View(i))
                           else Resampled(i, sliders[i], draws[i], semOf)
    {
      for i := 0 to GroupCount
        invariant forall k :: i <= k < GroupCount ==> View(k) == old(View(k))
        invariant forall k :: 0 <= k < i ==> nArray[k] == sliders[k]
        invariant forall k :: 0 <= k < i ==>
                    View(k) == if old(nArray[k]) == sliders[k] then old(View(k))
                               else Resampled(k, sliders[k], draws[k], semOf)
      {
        if nArray[i] != sliders[i] {
          assert View(i) == old(View(i));
          Resample(i, sliders[i], draws[i]);
        }
      }
    }

    /**
     * `update_data`: resample exactly the groups whose slider value differs
     * from their recorded size, then recompute all markers from the current
     * samples. `draws[i]` is the draw for group i; it is used only when that
     * group is resampled.
     */
    method UpdateData(sliders: seq<int>, draws: seq<seq<real>>)
      requires Valid()
      requires |sliders| == GroupCount && |draws| == GroupCount
      requires forall i :: 0 <= i < GroupCount ==> MinSize <= sliders[i] <= MaxSize
      requires forall i :: 0 <= i < GroupCount && nArray[i] != sliders[i] ==>
                 |draws[i]| == sliders[i] && InPopulation(draws[i], population)
      modifies this, nArray, samples, meanArray, semArray, xBar, yBar, xErr, yErr
      ensures Valid()
      ensures nArray[..] == sliders
      ensures forall i :: 0 <= i < GroupCount ==>
                View(i) == if old(nArray[i]) == sliders[i] then old(View(i))
                           else Resampled(i, sliders[i], draws[i], semOf)
      ensures MarkersCurrent(markersT, markersM, markersR, samples[..], yBar[..], tests)
    {
      ResampleChanged(sliders, draws);
      var pValues;
      markersT, markersM, markersR, pValues := CalcSignificance(samples[..], yBar[..], tests);
      forall i | 0 <= i < GroupCount
        ensures Consistent(i, View(i), population, semOf)
      {
        if old(nArray[i]) != sliders[i] {
          ResampledConsistent(i, sliders[i], draws[i], population, semOf);
        }
      }
    }
  }

  /**
   * The first slider event after start-up moves slider k away from
   * `initial_n`: group k, and only group k, is resampled, because every other
   * slider still equals its group's recorded size.
   */
  method FirstSliderEvent(population: seq<real>, semOf: seq<real> -> real, tests: PTests,
                          initialDraws: seq<seq<real>>, k: int, v: int, draw: seq<real>)
    returns (e: Explorer)
    requires |population| == PopulationSize
    requires |initialDraws| == GroupCount
    requires forall i :: 0 <= i < GroupCount ==>
              |initialDraws[i]| == InitialN && InPopulation(initialDraws[i], population)
    requires 0 <= k < GroupCount && MinSize <= v <= MaxSize && v != InitialN
    requires |draw| == v && InPopulation(draw, population)
    ensures e.Valid()
    ensures forall i :: 0 <= i < GroupCount ==>
              e.View(i) == if i == k then Resampled(k, v, draw, semOf)
                           else Resampled(i, InitialN, initialDraws[i], semOf)
  {
    e := new Explorer(population, semOf, tests, initialDraws);
    var sliders := seq(GroupCount, i => if i == k then v else InitialN);
    var draws := seq(GroupCount, i => if i == k then draw else []);
    forall i | 0 <= i < GroupCount
      ensures e.nArray[i] == InitialN
    {
      assert e.View(i).n == InitialN;
    }
    e.UpdateData(sliders, draws);
  }
}
