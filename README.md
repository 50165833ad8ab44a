# Navigator: a verified model of the AR Drone navigation core

This project models and proves properties of the `Navigator` class of an AR Drone 2.0 navigation helper. The class keeps a bounded window of telemetry samples that a background sampler fills. From that window it computes a snapshot of the drone's state: one averaged value per channel, taken after an outlier test. As written, that test keeps the flagged samples (see below). From that snapshot it derives a banded steering command towards a target GPS position.

The model is written in the source's own form:

- **The sample window** is the class `Window.SampleWindow`. It is a ring buffer over a fixed array that behaves like `deque(maxlen = 150)`.
- **The navigator** is the class `Navigation.Navigator`. Its fields are the navigator's own:
  - the magnetometer bias;
  - the target position, distance and bearing;
  - the statistics dictionary;
  - the home position.
- **Statistics refresh.** `__set_stats` is a chain of loop methods. Each method is proved equal to a specification function on the window. The steps are:
  1. build the nine channel lists;
  2. compress each list with its outlier mask;
  3. fall back to the full list when nothing is flagged;
  4. average.
- **Pure functions with lemmas.** The outlier test (`__is_outlier`), the median, the mean and the steering bands are functions, and their properties are proved as lemmas.

The properties proved include:

- **Sample window.** It never holds more than 150 samples. Appending to a full window drops the oldest sample, keeps the others in order and puts the new sample last.
- **Outlier test, positive MAD.** A sample is flagged exactly when `0.6745 * d > 3.5 * MAD`. MAD is the median of the samples' distances from the channel median.
- **Outlier test, zero MAD.** The outcome follows numpy's float64 division with the warnings switched off. A sample at distance 0 is never flagged, because 0/0 is NaN. A sample at positive distance is always flagged, because d/0 is +inf.
- **Constant channels.** A channel of identical samples has no flagged sample.
- **The test never flags every sample.** It follows that when some sample is flagged, the average is taken over strictly fewer samples than the window holds.
- **Compression.** The compressed list is exactly the flagged samples, in window order.
- **Chosen list.** Each channel's chosen list is never empty and is a subsequence of the channel. It is the flagged samples when there are any, and the whole channel otherwise.
- **Averages.** Each channel's average lies within any bounds that hold for every sample. A window of identical samples averages to that sample.
- **Statistics refresh.** After `__set_stats`, `stats` holds exactly the nine channels, each mapped to its aggregate over the current window. `get_move` and the diagnostic getters read those aggregates.
- **Steering.** The command follows the five bands of `get_move`. It never moves sideways or vertically. It turns against the error and stops exactly outside the ±10° band. A NaN error falls through to "full speed ahead, no turn".

### Behaviour of the code that the model keeps

- **Which samples are kept.** The comment at navigator.py:73 reads "Remove outliers". But `itertools.compress(stat, mask)` at lines 75-76 keeps the elements whose selector is true, and the mask at line 102 is `modified_z_score > thresh`. So the lists that reach the average are the samples the test flags. The model keeps the flagged samples.
- **Zero MAD.** `np.seterr` at line 5 silences division warnings, so a zero MAD does not switch the test off. At line 100 a sample at positive distance divides to +inf and is flagged, and a sample at distance 0 divides to NaN and is not flagged. `Outliers.FlaggedWhenDegenerate` states this.
- **NaN angle error.** Every comparison at lines 201-207 is false for NaN, so a NaN `angle_diff` reaches the `else` branch at lines 209-210: `DEF_SPD` forward, zero turn. `Steering.BandOnNaN` states this.
- **Where the heading is computed.** `__get_stats` turns each sample's corrected magnetometer axes into a heading at lines 125-126. `__set_stats` then averages the `deg` channel at lines 83-86 like any other channel. The model does the same. As a result, headings either side of north (359° and 1°) average towards south.
- **Empty window.** On an empty window every channel list is empty, and `reduce` at line 84 raises on its first channel, before `stats` is written. The model reports this instead: `SetStats` returns `ok == false`, `GetMove` returns `NotReady` and `GetChannel` returns `None`, and `stats` is left unchanged.

Calls the model cannot see are passed in as function parameters:

- `sqrt` is numpy's square root, used for the Euclidean distances.
- `atan2Deg(y, x)` is `atan2(y, x) * 180 / pi`.
- `heading` and `distance` are `__calc_heading` and `__calc_distance`.
- `angleDiff` is the drone's `angleDiff`. It returns a `Floats.Float`, so NaN and the infinities are possible values.

Python numbers are modelled as exact reals. In this core they only feed additions, subtractions, multiplications, divisions, the float remainder `% 360` of the heading (navigator.py:125-126, `Samples.Mod360`) and comparisons. Float64 special values change behaviour in two places, and both are modelled explicitly: the division by a zero MAD in the outlier test (navigator.py:5, 100-102), and the NaN or infinite heading error that reaches the if/elif chain of `get_move` (navigator.py:201-210) through `angleDiff`'s `Float` result.

## Model

| member | source | states |
|---|---|---|
| Floats.DivByZero | Code/Testing/navigation/navigator.py:5 | with division warnings ignored, x/0 is +inf exactly for positive x, NaN exactly for x = 0, -inf exactly for negative x |
| Floats.NaNComparesFalse | Code/Testing/navigation/navigator.py:102 | NaN is neither greater nor less than any threshold |
| Floats.Div | Code/Testing/navigation/navigator.py:5 | the quotient is finite exactly when the divisor is nonzero, and then it times the divisor gives back the dividend |
| Samples.DropLast | Code/Testing/navigation/navigator.py:114 | `v[:-1]` is `v` without its last element, and empty for an empty list |
| Samples.Mod360 | Code/Testing/navigation/navigator.py:125-126 | Python's float `% 360` lies in [0, 360) and differs from its argument by a whole number of turns |
| Samples.Heading | Code/Testing/navigation/navigator.py:125-126 | the heading of the corrected magnetometer axes is in [0, 360) |
| Samples.HeadingClockwise | Code/Testing/navigation/navigator.py:125-126 | for an atan2 angle a in [-180, 180] the heading is -a when a <= 0 and 360 - a when a > 0 |
| Steering.Band | Code/Testing/navigation/navigator.py:201-213 | the command has lateral and vertical 0; forward is 0 exactly outside the ±10 band and DEF_SPD otherwise; the turn is negative exactly for a positive error and positive exactly for a negative one; hard outside the band, soft or zero inside |
| Steering.BandTable | Code/Testing/navigation/navigator.py:201-210 | the five bands: >10 gives (0, 0, 0, -0.3); <-10 gives (0, 0, 0, 0.3); (0, 10] gives (0, 0.3, 0, -0.1); [-10, 0) gives (0, 0.3, 0, 0.1); 0 gives (0, 0.3, 0, 0) |
| Steering.BandOnNaN | Code/Testing/navigation/navigator.py:209-210 | a NaN error reaches the last branch: default speed forward, no turn |
| Steering.BandMirror | Code/Testing/navigation/navigator.py:201-210 | negating the error keeps the forward speed and negates the turn |
| Steering.BandMonotone | Code/Testing/navigation/navigator.py:201-210 | the turn speed never increases as the error grows |
| Window.SampleWindow.constructor | Code/Testing/navigation/navigator.py:24 | a new window of the given capacity is empty |
| Window.SampleWindow.Append | Code/Testing/navigation/navigator.py:24 | below capacity the element is added at the end and nothing else changes; at capacity the oldest element is dropped and the new one added last; a capacity-0 deque stays empty; the ring-buffer invariant is kept |
| Window.SampleWindow.Snapshot | Code/Testing/navigation/navigator.py:69 | `list(deque)` is the elements oldest first |
| Statistics.Insert | Code/Testing/navigation/navigator.py:96 | inserting into a sorted list keeps it sorted and adds exactly the one element |
| Statistics.Sort | Code/Testing/navigation/navigator.py:96 | the result is sorted and as long as the input |
| Statistics.SortPermutes | Code/Testing/navigation/navigator.py:96 | the sorted result holds exactly the input's values, each as often |
| Statistics.Median | Code/Testing/navigation/navigator.py:96-99 | `np.median` of a non-empty list has some element at or below it and some element at or above it |
| Statistics.MedianWithin | Code/Testing/navigation/navigator.py:96-99 | the median lies within any bounds that hold for every element |
| Statistics.MedianOfConstant | Code/Testing/navigation/navigator.py:96-99 | the median of equal values is that value |
| Vectors.SumSqOfZero | Code/Testing/navigation/navigator.py:97 | the sum of squares of the zero vector is 0 |
| Vectors.ReduceWithin | Code/Testing/navigation/navigator.py:84-85 | each component of the `reduce` sum of n rows lies between n·lo and n·hi when every row's component does |
| Vectors.Reduce | Code/Testing/navigation/navigator.py:84-85 | the `reduce` sum of rows of `dim` components has `dim` components; `ReduceIsColumnSum` gives each component |
| Vectors.ReduceIsColumnSum | Code/Testing/navigation/navigator.py:84-85 | component k of the `reduce` sum is the sum of component k over all rows |
| Vectors.Mean | Code/Testing/navigation/navigator.py:84-86 | the mean of rows of `dim` components has `dim` components; `MeanIsColumnAverage` gives each component |
| Vectors.MeanIsColumnAverage | Code/Testing/navigation/navigator.py:84-86 | component k of sum/len is the sum of component k over the rows divided by the number of rows |
| Vectors.MeanWithin | Code/Testing/navigation/navigator.py:84-86 | each component of sum/len lies within any bounds every row satisfies in that component |
| Vectors.MeanOfConstant | Code/Testing/navigation/navigator.py:84-86 | the mean of copies of one vector is that vector |
| Selection.Compress | Code/Testing/navigation/navigator.py:75-76 | `itertools.compress` output is no longer than the data; `CompressKeepsFlagged` says which elements it holds |
| Selection.CompressWithin | Code/Testing/navigation/navigator.py:75-76 | every element of the compressed list is an element of the data |
| Selection.Positions | Code/Testing/navigation/navigator.py:75-76 | the ascending list of exactly the selected positions |
| Selection.CompressKeepsFlagged | Code/Testing/navigation/navigator.py:75-76 | the compressed list is the subsequence of the data at exactly the selected positions, in order |
| Selection.CompressNoneSelected | Code/Testing/navigation/navigator.py:75-76 | with no selector true the compressed list is empty |
| Selection.CompressDropsUnselected | Code/Testing/navigation/navigator.py:75-76 | with some selector false the compressed list is strictly shorter than the data |
| Selection.Chosen | Code/Testing/navigation/navigator.py:79-80 | the list used for the average is non-empty for a non-empty channel and holds only channel values |
| Selection.ChosenWhenFlagged | Code/Testing/navigation/navigator.py:79-80 | when some sample is flagged the chosen list is the flagged subsequence |
| Selection.ChosenWhenNoneFlagged | Code/Testing/navigation/navigator.py:79-80 | when no sample is flagged the chosen list is the whole channel |
| Selection.ChosenIsSubsequence | Code/Testing/navigation/navigator.py:74-80 | the chosen list is always a subsequence of the channel |
| Outliers.FlaggedIsNumpyTest | Code/Testing/navigation/navigator.py:100-102 | the flag is the float64 test `0.6745 * d / mad > 3.5` with numpy's division by zero |
| Outliers.ColumnMedian | Code/Testing/navigation/navigator.py:96 | `np.median(points, axis=0)` has one component per dimension; `ColumnMedianBetween` places each |
| Outliers.ColumnMedianBetween | Code/Testing/navigation/navigator.py:96 | each component of the column median lies between two samples' values of that component |
| Outliers.Distances | Code/Testing/navigation/navigator.py:97-98 | one distance per sample |
| Outliers.DistancesNonNegative | Code/Testing/navigation/navigator.py:97-98 | every distance is non-negative for a square root that is non-negative on non-negative arguments |
| Outliers.DistanceOfMedian | Code/Testing/navigation/navigator.py:97-98 | a sample equal to the median is at distance sqrt(0) |
| Outliers.Mask | Code/Testing/navigation/navigator.py:99-102 | one flag per distance, tested against the median of the distances; `MaskWhenSpread` and `MaskWhenDegenerate` give each flag |
| Outliers.IsOutlier | Code/Testing/navigation/navigator.py:88-102 | `__is_outlier` gives one flag per sample; `IsOutlierFlags` says which samples are flagged |
| Outliers.IsOutlierFlags | Code/Testing/navigation/navigator.py:94-102 | sample i is flagged exactly when the float64 test `0.6745 * d / mad > 3.5` holds for its distance d from the column median and the median distance mad, a zero mad included |
| Outliers.FlaggedWhenSpread | Code/Testing/navigation/navigator.py:100-102 | with MAD > 0 a sample is flagged exactly when 0.6745·d > 3.5·MAD |
| Outliers.FlaggedWhenDegenerate | Code/Testing/navigation/navigator.py:5 | with MAD = 0 a sample at distance d >= 0 is flagged exactly when d > 0 |
| Outliers.MaskWhenSpread | Code/Testing/navigation/navigator.py:99-102 | with positive MAD the mask is the plain inequality at every sample |
| Outliers.MaskWhenDegenerate | Code/Testing/navigation/navigator.py:99-102 | with zero MAD exactly the samples at positive distance are flagged |
| Outliers.MadNonNegative | Code/Testing/navigation/navigator.py:99 | the MAD of non-negative distances is non-negative |
| Outliers.SomeSampleUnflagged | Code/Testing/navigation/navigator.py:99-102 | some sample of every non-empty list of distances is not flagged |
| Outliers.SumSqNonNegative | Code/Testing/navigation/navigator.py:97 | a sum of squares is non-negative |
| Outliers.ChannelHasUnflagged | Code/Testing/navigation/navigator.py:94-102 | `__is_outlier` leaves some sample of a non-empty channel unflagged, for any square root that is non-negative on non-negative arguments |
| Outliers.IdenticalChannelUnflagged | Code/Testing/navigation/navigator.py:94-102 | a channel of identical samples has no flagged sample |
| Vectors.Column | Code/Testing/navigation/navigator.py:69-71 | a channel list has one value per sample; `ColumnSnoc` and `BuildChannelLists` say which |
| Vectors.ColumnSnoc | Code/Testing/navigation/navigator.py:69-71 | one more sample appends its value to each channel list |
| Aggregation.ChannelsFit | Code/Testing/navigation/navigator.py:69-71 | in a window of conforming samples every channel list has vectors of the channel's length |
| Aggregation.ChannelChoice | Code/Testing/navigation/navigator.py:74-80 | the chosen list of a non-empty window is non-empty, with vectors of the channel's length |
| Aggregation.AggregateChannel | Code/Testing/navigation/navigator.py:83-86 | the channel's aggregate has the channel's length |
| Aggregation.ChannelChoiceIsSubsequence | Code/Testing/navigation/navigator.py:74-80 | the chosen list is non-empty and a subsequence of the channel; it is the compressed list when some sample is flagged and the whole channel when none is |
| Aggregation.FlaggedChoiceIsProper | Code/Testing/navigation/navigator.py:74-80 | when some sample is flagged the average is taken over strictly fewer samples than the window holds |
| Aggregation.AggregateWithin | Code/Testing/navigation/navigator.py:83-86 | each component of a channel's aggregate lies within any bounds that every sample of the window satisfies |
| Aggregation.AggregateOfIdenticalWindow | Code/Testing/navigation/navigator.py:83-86 | a window of identical samples aggregates to that sample in every channel |
| Navigation.BuildChannelLists | Code/Testing/navigation/navigator.py:69-71 | the nested append loops produce, for every channel, its values in window order |
| Navigation.FlagChannels | Code/Testing/navigation/navigator.py:74-76 | the loop produces, for every channel, the compress of its list by its outlier mask |
| Navigation.UseFlagged | Code/Testing/navigation/navigator.py:79-80 | each channel list is replaced by its flagged samples exactly when there are any |
| Navigation.ChooseChannels | Code/Testing/navigation/navigator.py:69-80 | the lists reaching the averaging loop are each channel's chosen list, non-empty and of the channel's length |
| Navigation.AverageChannels | Code/Testing/navigation/navigator.py:83-86 | the averaging loop computes, for every channel, sum/len of its chosen list |
| Navigation.AggregateChannels | Code/Testing/navigation/navigator.py:58-86 | the loops of `__set_stats` compute every channel's aggregate |
| Navigation.AggregateWindow | Code/Testing/navigation/navigator.py:83-86 | the dictionary written has exactly the nine channels, each mapped to its aggregate |
| Navigation.KeyedAggregates | Code/Testing/navigation/navigator.py:83-86 | keying the per-channel results by channel gives the aggregate dictionary |
| Navigation.Navigator.constructor | Code/Testing/navigation/navigator.py:10-50 | the bias is [-14, 13], the target [0, 0], distance and bearing 0; the window holds the converted last min(n, 150) start-up frames, in order; the statistics are the aggregates of that window and home is the aggregated GPS |
| Navigation.Navigator.CollectBurst | Code/Testing/navigation/navigator.py:39-42 | the sampler running through the start-up frames leaves the window holding the converted last min(n, 150) frames, in order |
| Samples.ConvertedTailStep | Code/Testing/navigation/navigator.py:54-55 | one sampler turn on a window of capacity cap turns "the converted last frames of the first k" into "of the first k + 1", both below and at capacity |
| Navigation.Navigator.GetStats | Code/Testing/navigation/navigator.py:104-129 | the sample has the GPS without altitude, the altitude in metres, the magnetometer x and y less the bias, their heading in [0, 360), and the other channels as read |
| Navigation.Navigator.Collect | Code/Testing/navigation/navigator.py:54-55 | the converted frame is appended to the window, dropping the oldest of 150 samples when full |
| Navigation.Navigator.SetStats | Code/Testing/navigation/navigator.py:58-86 | after a refresh of a non-empty window every channel's statistic is its aggregate over the window; an empty window changes nothing |
| Navigation.Navigator.GetMove | Code/Testing/navigation/navigator.py:190-213 | after the refresh, the bearing and the distance are computed from the aggregated GPS, the command is the band of the angle difference between the aggregated heading and the bearing, and the distance is returned unchanged; an empty window is reported and changes nothing |
| Navigation.Navigator.SetTarget | Code/Testing/navigation/navigator.py:215-216 | the target becomes the given position |
| Navigation.Navigator.GetHome | Code/Testing/navigation/navigator.py:220-221 | returns the home position |
| Navigation.Navigator.SetHome | Code/Testing/navigation/navigator.py:223-224 | the home becomes the given position |
| Navigation.Navigator.GetChannel | Code/Testing/navigation/navigator.py:226-255 | `get_vel`, `get_acc`, `get_gps`, `get_deg` and `get_mag` return, after the refresh, the aggregate of their channel over the current window |

## Left out

- The sampler thread, its `time.sleep` pacing and the `NavDataCount` busy-waits are left out. The model has no concurrency: a refresh sees one consistent window.
- The constructor's timed start-up wait becomes a non-empty list of frames that the sampler reads before the first refresh.
- Navigation.Navigator.constructor: requires at least one frame in that list. With an empty window the source's `reduce` raises before `home` is set, and no object is made.
- Device set-up calls (`useDemoMode`, `getNDpackage`) and the `print` messages are left out.
- `__calc_distance` and `__calc_heading` are transcendental geodesy. They are parameters here, applied to the aggregated GPS and the target. Their formulas depart from the haversine and bearing formulas, and the model does not restate them.
- The drone's `angleDiff` is a parameter. Its result may be any `Float`, NaN included.
- The atan2 in `__get_stats` becomes the `atan2Deg` parameter, and `np.sqrt` becomes the `sqrt` parameter. The properties that depend on `sqrt` assume only what they state, for example that it is non-negative on non-negative arguments.
- Magnetometer calibration is left out because it is flight, sleeps and device reads. This covers `__calc_mag` and `calibrate_drone`. It ends by setting the bias to the means of the recorded readings. The bias is a field here, and no modelled operation changes it.
- `get_demo`'s string formatting is left out. `get_all` is a refresh followed by reading the whole dictionary, which `SetStats` covers.
- Float64 rounding is not modelled. Values are exact reals. Two places keep their IEEE outcomes: the division by a zero MAD in the outlier test, and the comparisons of a NaN or infinite `angleDiff` result in `Steering.Band`.
- Vectors.Mean: the division is real division. The source is Python 2 (the `print` statements at navigator.py:13-50), where numpy's `/` on an integer array by an int floor-divides. A channel whose NavData readings are integers would have its average floored: acc samples [1, 0, 0] and [2, 0, 0] average to [1, 0, 0] in the source and to [1.5, 0, 0] here. The files of the repository at hand do not show the types of the NavData fields. `raw_measures`, and `magneto[0]` minus the integer default bias at line 22, may be integers. The altitude is divided by `1000.0` at line 120 and so is a float. The GPS and heading channels that steer are floats.
- Statistics.Median: the contract locates the median between values of the list. It does not restate numpy's middle-element or middle-pair formula.
