# Sampling explorer: group bookkeeping and significance markers

This project models the bookkeeping core of a small interactive statistics
demo. The demo keeps a population of 1000 values drawn from N(2, 1) and five
groups. Each group is a sample drawn from the population, shown as a bar at
the sample mean with an error whisker. Five sliders choose the sample sizes.
When a slider moves, every group whose slider value differs from its recorded
size is resampled. In app.py, groups 0..3 are then tested against group 4
with a t-test, a Mann-Whitney U test and a Wilcoxon rank-sum test. Each
significant result (p < 0.05) puts a marker above the highest bar.

Two versions of the program are modelled, one module each:

- `SamplingExplorer` (sampling_explorer.dfy) models app.py. Its lists
  `N_array`, `samples`, `mean_array`, `sem_array`, `x_bar`, `y_bar`, `x_err`
  and `y_err` are the eight length-5 arrays of class `Explorer`. The y columns
  of the three marker sources are the fields `markersT`, `markersM` and
  `markersR`. `CalcSignificance` is `calc_significance`; the source reads the
  global `y_bar` for the highest bar, while the model takes the bar heights as
  a parameter `bars`, to which every caller passes `yBar[..]`. `UpdateData`
  is `update_data`.
- `SliderSampling` (slider_sampling.dfy) models bokeh-sliders.py, the
  earlier version. It has seven lists in class `SliderPlot`, a one-sided
  whisker `[mean, mean + sd]`, and `sem` is the plain sample standard
  deviation. It keeps no samples, so a ghost field `drawn` records the draw
  behind each group's entries.
- `Stats` (stats.dfy) holds what both use: the arithmetic mean
  `Sum(s) / |s|`, `max`, and `InPopulation`. `InPopulation` states that every
  value of a draw comes from the population. Together with a separate
  `|draw| == n` condition, it is what is known of a draw made with
  `np.random.choice`.

Randomness and library numerics are inputs. Each event receives one draw per
group; a draw is used only if that group is resampled. The standard error
(`stdev(s) / sqrt(len(s))` in app.py, `stdev(s)` in bokeh-sliders.py) is a
function `semOf` or `stdev` that the object is built with. The three scipy
tests are a `PTests` value: three functions from a pair of samples to a
p-value. Because these are functions of the samples, the invariant can say
that the markers are always derived from the current samples.

Each class's `Valid()` states four things. Every list has length 5, and no
two lists are the same list. Group i's entries are exactly what its current
sample gives: the mean, the SEM, bar x = i + 1, bar height = mean, and the
whisker. The sample has the recorded size, which lies in the slider range
2..100, and comes from the population. In app.py, the marker rows match the
current samples and bars.

Where the code differs from a per-group "set one group's size" design, the
model follows the code:

- `update_data` compares all five sliders with their recorded sizes.
- It recomputes all twelve markers after every event, not only the changed
  comparisons.
- Markers are heights (`max(y_bar) + offset`, or -10), not booleans.
- There is no error path for a bad group index: the five sliders and their
  range 2..100 fix the inputs.
- bokeh-sliders.py stores the plain standard deviation as `sem`.

## Model

| member | source | states |
|---|---|---|
| `Stats.Mean` | app.py:47 | the mean of a non-empty sample lies between its smallest and largest value |
| `Stats.MaxOf` | app.py:71-73 | `max(y_bar)` is one of the bar heights and no bar is higher |
| `Stats.DrawMeanWithinPopulation` | app.py:45-47 | the mean of any draw from the population lies within the population's range, so no bar leaves it |
| `SamplingExplorer.Marker` | app.py:71-73 | a p-value not strictly below 0.05 gives -10. A marker other than -10 comes only from a significant p-value and sits exactly `offset` above the given top, so strictly above it for a positive offset |
| `SamplingExplorer.CalcSignificance` | app.py:58-75 | returns exactly four p-value records and three marker rows of length 4. Entry j is `PValuesOf(samples[j], samples[4], tests)`: the t-test, Mann-Whitney and rank-sum p-values of `samples[j]` against `samples[4]`, in that argument order. Each marker is placed from its own p-value and the highest bar |
| `SamplingExplorer.MarkerRule` | app.py:71-73 | a p-value not strictly below 0.05 gives height -10. A smaller one gives a height strictly above every bar. Hidden exactly when not significant, provided the highest bar plus the offset is not -10 |
| `SamplingExplorer.ShownMarkersAboveBars` | app.py:71-73 | every shown marker (height not -10) is strictly above every bar top. When all three tests are significant, the markers are stacked t-test < Mann-Whitney < rank-sum |
| `SamplingExplorer.Resampled` | app.py:45-55 | the entries one group gets from a draw of size n: the size and the draw itself, mean == bar height == the draw's mean, sem == `semOf` of the draw, bar x == i + 1, the whisker vertical at i + 1, centred on the bar top and 2·sem long |
| `SamplingExplorer.ResampledConsistent` | app.py:224-235 | a draw of a slider-range size from the population yields a group whose entries are consistent with it |
| `SamplingExplorer.GroupGeometry` | app.py:47-55 | in a consistent group, mean == bar height == the sample's mean, and x_bar == i + 1. The whisker is `[i+1, i+1]` by `[mean - sem, mean + sem]`: centred on the bar, 2·sem long, lower <= upper when sem >= 0. The bar lies within the population's range |
| `SamplingExplorer.Explorer.constructor` | app.py:33-77 | start-up gives five groups of size 5, each exactly what its draw gives, with all lists of length 5 and the markers computed from these samples |
| `SamplingExplorer.Explorer.Resample` | app.py:223-235 | given a draw of size n, records n and rewrites group i from that draw. Every other group is unchanged |
| `SamplingExplorer.Explorer.ResampleAll` | app.py:44-55 | the start-up loop: afterwards every group is exactly what its own draw of size n gives |
| `SamplingExplorer.Explorer.ResampleChanged` | app.py:221-235 | the loop of `update_data`: afterwards each recorded size equals its slider value. A group whose slider equals its old size keeps all eight entries. Every other group is exactly what its draw gives |
| `SamplingExplorer.Explorer.UpdateData` | app.py:218-238 | afterwards each recorded size equals its slider value. A group whose slider equals its old size keeps all eight entries. Every other group is exactly what its draw gives. The markers match the new samples and bars whichever group changed, and the invariant is kept |
| `SamplingExplorer.FirstSliderEvent` | app.py:193-203 | sliders start at `initial_n`, so the first event that moves slider k resamples group k and only group k |
| `SliderSampling.Resampled` | bokeh-sliders.py:41-47 | the entries one group gets from a draw of size n: mean == bar height == the draw's mean, sem == `stdev` of the draw, bar x == i + 1, and the whisker vertical at i + 1, from the bar top up by sem |
| `SliderSampling.ResampledConsistent` | bokeh-sliders.py:86-95 | a draw of a slider-range size from the population yields a group consistent with that draw |
| `SliderSampling.GroupGeometry` | bokeh-sliders.py:40-47 | in a consistent group, mean == y_bar == the draw's mean, sem == stdev of the draw (not divided by √n), and x_bar == i + 1. The whisker is `[i+1, i+1]` by `[mean, mean + sem]`: one-sided, starting at the bar top, pointing up when sem >= 0. The bar lies within the population's range |
| `SliderSampling.SliderPlot.constructor` | bokeh-sliders.py:30-47 | start-up gives five groups of size 2, each exactly what its draw gives, with all seven lists of length 5 |
| `SliderSampling.SliderPlot.Resample` | bokeh-sliders.py:86-95 | given a draw of size n, records n and rewrites group i from that draw. Every other group is unchanged |
| `SliderSampling.SliderPlot.ResampleAll` | bokeh-sliders.py:40-47 | the start-up loop: afterwards every group is exactly what its own draw of size n gives |
| `SliderSampling.SliderPlot.ResampleChanged` | bokeh-sliders.py:84-95 | the loop of `update_data`: afterwards each recorded size equals its slider value. Unchanged groups keep all entries and their draw. A changed group is exactly what its draw gives |
| `SliderSampling.SliderPlot.UpdateData` | bokeh-sliders.py:81-95 | afterwards each recorded size equals its slider value. Unchanged groups keep mean, sem, whisker and bar. A changed group is exactly what a draw of the slider's size gives, and the invariant is kept |
| `SliderSampling.FirstSliderEvent` | bokeh-sliders.py:69-90 | groups start at size 2 and sliders at 3. The first event, moving slider k to v, resamples the other four groups with size 3. Group k is resampled with size v unless v is 2; then it keeps its first sample |

## Left out

- Plotting, widgets, legend, layout, colours, `curdoc` and `update_title` are
  presentation code and are not modelled.
- The population-mean line (`Span`) is presentation code and is not modelled.
- chart.py is not modelled. It only embeds the Bokeh server page in a Flask
  route.
- Random number generation (`np.random.normal`, `np.random.choice`) is not
  modelled. Draws are inputs: a sequence of the requested length whose values
  come from the population. Drawing with replacement is therefore not
  otherwise constrained.
- scipy's `ttest_ind`, `mannwhitneyu` and `ranksums` are not modelled. They
  are supplied as functions from a pair of samples to a p-value, so their
  numerics, including NaN results, are not modelled.
- `statistics.stdev` and `math.sqrt` are not modelled. They are the supplied
  function `semOf`/`stdev`; its sign is not assumed, so the ordered-whisker
  properties carry "when sem >= 0".
- Floating point is not modelled. Values are Dafny reals, and the mean is
  exact.
- The `print` calls are not modelled. They only write output.
- Reassigning the `ColumnDataSource` data is not modelled; it only pushes data
  to the renderer. For app.py, the marker rows it pushes are kept as fields.
- The module-level `p_values` list computed at start-up is not kept. Nothing
  reads it. `CalcSignificance` still returns it.
- The start-up loops append to empty lists. The model allocates length-5
  arrays and then fills them index by index, with the same values. Start-up
  reuses the update body `Resample`, so it also writes the recorded size of
  each group (which the source's start-up loop does not touch; it already holds
  that value), and the order of the writes within one index differs from the
  source's appends.
