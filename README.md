# Tack analysis of `maneuvers.js`, modelled in Dafny

This project models the tack-analysis core of `src/maneuvers.js`, a sailing-telemetry module.
A race log is a time-ordered sequence of samples. Each sample has a timestamp and optional
readings: wind angle and speed, boat speed, VMG, heading, rate of turn, position, race time and
targets.

The two classifiers `board` and `leg` label a sample with its board (`U-S`, `U-P`, `D-S`, `D-P`,
`PS`) or with its leg. Segments of a constant board are the "maneuvers". `analyzeTacks` picks the
upwind-to-upwind board changes that are not followed by another maneuver (of any board) within
45 s. For each one it runs nine phases
(`tackUtils`) over the window from 30 s before to 120 s after the change:

1. `findCenter`
2. `findStart`
3. `calculateEntrySpeeds`
4. `findEnd`
5. `findRecoveryTime`
6. `findRecoveryMetrics`
7. `addClassificationStats`
8. `convertIndexesToTimes`
9. `calculateLoss`

Together these phases build one tack record.

The modules follow the source's structure:

- `Wrappers`: `Option`.
- `Telemetry`: the sample record, the field selector and "the present values of a field".
- `Averaging`: `mean()` as a class `Mean` over a ghost list of its inputs, and the pure `Average` it is proved against.
- `Slicing`: `_.sortedIndex`, `Array.prototype.slice`, `getSliceBetweenTimes` and `getSliceAroundTime`.
- `Classifiers`: `board` and `leg`.
- `TackSpec`: the tack record, and one pure function per phase for the record that phase leaves behind. Each function returns `None` exactly where the JavaScript phase throws a TypeError. The phases are then composed in the source's order.
- `TackUtils`: the mutable `tack` object as class `Tack`, with one in-place method per phase. The methods use the source's loops and `mean()` accumulators. Each is proved to leave exactly the record its `TackSpec` function gives, and to report failure exactly where the source throws.
- `Analysis`: the selection loop of `analyzeTacks`, as a value-level specification and as the source's loop over `Tack` objects.

Throughout the model:

- Times are integer milliseconds. A `moment` shift of s seconds is ±1000·s.
- A missing key is `None`.
- A comparison with `undefined` is false.
- `0/0` (NaN) is `None`.
- `circularMean` lives in a module that is not part of this model. It is a parameter: a function from a list of angles to an optional angle.

## Model

| member | source | states |
|---|---|---|
| Averaging.Average | src/maneuvers.js:17-20 | the mean is absent exactly for no inputs, and otherwise times the count equals the sum |
| Averaging.SumBounds | src/maneuvers.js:13-16 | a sum of values in [lo, hi] lies between count·lo and count·hi |
| Averaging.AverageWithinBounds | src/maneuvers.js:9-22 | the mean of values in [lo, hi] lies in [lo, hi] |
| Averaging.AverageOfConstant | src/maneuvers.js:9-22 | the mean of a constant list is that constant |
| Averaging.AverageExample | src/maneuvers.js:17-20 | no inputs give `undefined`; 2, 4, 6 give 4 |
| Averaging.Mean.constructor | src/maneuvers.js:9-11 | a fresh accumulator has seen nothing |
| Averaging.Mean.Update | src/maneuvers.js:13-16 | `update(p)` appends p to what the accumulator has seen, keeping sum and count consistent with it |
| Averaging.Mean.Result | src/maneuvers.js:17-20 | `result()` is the mean of everything fed in (absent when nothing was) |
| Telemetry.Present | src/maneuvers.js:86-105 | keeping only the samples that have the field never yields more values than samples |
| Telemetry.PresentEmpty | src/maneuvers.js:86-105 | no value is kept exactly when no sample has the field |
| Telemetry.PresentWithin | src/maneuvers.js:86-105 | the kept values lie within any bounds the samples' values of that field obey |
| Slicing.LowerBound | src/maneuvers.js:272-273 | `_.sortedIndex`: every sample before the index is earlier than x, and the sample at it (if any) is not |
| Slicing.LowerBoundSorted | src/maneuvers.js:272-273 | on sorted data every sample from the index on is at or after x |
| Slicing.LowerBoundMonotone | src/maneuvers.js:272-273 | a later time never gives an earlier index |
| Slicing.JsSlice | src/maneuvers.js:275 | `slice(from, to)`: its length, with `to` clamped and an inverted range empty, and its elements are the source's from `from` on |
| Slicing.SliceBetweenTimes | src/maneuvers.js:271-276 | `getSliceBetweenTimes`: the slice is the contiguous run of data from the first sample at or after `from`, and every element but the last is before `to` |
| Slicing.SliceBetweenTimesWindow | src/maneuvers.js:271-276 | on sorted data the slice holds every sample in [from, to); all but its last element are before `to`; when from ≤ to and a sample at or after `to` exists, the first such sample closes it |
| Slicing.SliceBetweenTimesStrict | src/maneuvers.js:271-276 | with distinct times the slice holds exactly the samples in [from, to], plus at most one later last sample |
| Slicing.SliceBetweenTimesMembers | src/maneuvers.js:271-276 | with distinct times every sample in [from, to] is a member of the slice, and every element but the last lies in [from, to] |
| Slicing.SliceDropsRepeatedEndTime | src/maneuvers.js:273-275 | of two samples at time `to`, only the first is in the slice |
| Slicing.SliceAroundTime | src/maneuvers.js:261-266 | `getSliceAroundTime`: the contiguous run of data from the first sample at or after `before` s earlier, whose elements but the last are before `after` s later |
| Slicing.SliceAroundTimeWindow | src/maneuvers.js:261-266 | on sorted data with distinct times, the window around a time holds every sample from `before` s earlier to `after` s later, and nothing outside it except possibly its last element |
| Classifiers.StartsWithUIsUpwind | src/maneuvers.js:326-329 | `board.charAt(0) == 'U'` holds exactly for U-S and U-P, and a board equals "PS" exactly for the pre-start label |
| Classifiers.Board | src/maneuvers.js:280-296 | null exactly without `twa`; PS exactly when race time is below 300 s; otherwise U-P for -90 ≤ twa < 0, D-P below -90, D-S above 90, U-S for 0 ≤ twa ≤ 90 |
| Classifiers.Leg | src/maneuvers.js:301-314 | PS exactly when race time is below 300 s; otherwise null without `twa`, Upwind for abs(twa) < 90, Downwind otherwise |
| Classifiers.BoardAndLegDisagreeOnlyAtRightAngle | src/maneuvers.js:280-314 | outside the pre-start, the board begins with U exactly when the leg is Upwind, except at abs(twa) = 90 |
| Classifiers.PreStartWithoutTwa | src/maneuvers.js:280-314 | a pre-start sample with no `twa` has a null board but leg PS |
| TackSpec.FirstAt | src/maneuvers.js:34-39 | finds the first index from `from` on whose time equals the given time, or reports that there is none |
| TackSpec.FindCenter | src/maneuvers.js:31-43 | succeeds exactly when some sample has the tack's time and it is not the first; then the center is the index before the first match, and only center and position change |
| TackSpec.CalmBefore | src/maneuvers.js:48-55 | the last sample at or before `hi` with abs(rot) < 2.5, or none |
| TackSpec.FindStart | src/maneuvers.js:45-65 | the start is the last calm sample in [1, center-3]; failing that, index 15 with the note "using default start", which throws when the window is shorter than 16 |
| TackSpec.FindStartPlaced | src/maneuvers.js:45-65 | after `findStart` the start lies inside the window and is placed or defaulted, the center is kept and the notes only grow |
| TackSpec.DefaultStartCanFollowCenter | src/maneuvers.js:57-63 | the default start can lie after the center |
| TackSpec.CalmAtIndexZeroIgnored | src/maneuvers.js:58 | a calm sample at index 0 is ignored (`if (startIdx)` is false for 0) |
| TackSpec.EntryWindow | src/maneuvers.js:70-72 | the entry window is a contiguous run of data whose elements but the last are earlier than 2 s before the start (the last may be the first sample after that), none earlier than 6 s before it on sorted data |
| TackSpec.CalculateEntrySpeeds | src/maneuvers.js:67-130 | the phase keeps identity, timing, `maxTwa` and loss, and adds at most the "started tack downspeed" note, only when the entry speed is below 90% of the stored target; its VMG and speed means are stated by `TackSpec.EntryVmgWithinWindow` and `TackSpec.EntrySpeedWithinWindow`, the converse of the note by `TackSpec.EntryDownspeedNote` |
| TackSpec.EntryDownspeedNote | src/maneuvers.js:112-119 | for a tack without a stored target, the downspeed note is added exactly when the window's target-speed mean is truthy and the entry speed is below 90% of it |
| TackSpec.EntrySpeedWithinWindow | src/maneuvers.js:67-109 | the entry speed is absent exactly when no sample of `EntryWindow` has `speed`, and otherwise lies within their range |
| TackSpec.PresentMeanWithin | src/maneuvers.js:86-109 | a per-field mean is absent exactly when no sample has the field, and otherwise within the field's bounds |
| TackSpec.EntryVmgWithinWindow | src/maneuvers.js:67-109 | the entry VMG is absent exactly when no sample of `EntryWindow` has `vmg`, and otherwise lies within their range; `EntryWindow` is the slice `getSliceBetweenTimes` returns from 6 s to 2 s before the start, which may end with the first sample later than 2 s before the start |
| TackSpec.EndFold | src/maneuvers.js:141-160 | the loop's `minIdx` stays at the center or moves to an index already scanned |
| TackSpec.EndFoldExtreme | src/maneuvers.js:136-160 | `minIdx` is the first extreme `twa` among the scanned samples that have one, or the center when none does |
| TackSpec.FindEnd | src/maneuvers.js:132-165 | succeeds exactly when the twelve samples from the center exist; the end lies among them, and only end, maxTwa and endPosition change |
| TackSpec.FindEndExtreme | src/maneuvers.js:132-165 | the end has the first largest `twa` of those twelve samples when the board is not U-P, and the first smallest on U-P |
| TackSpec.FirstRecovery | src/maneuvers.js:169-174 | the first index from `from` on whose `vmg` is at least the entry VMG, or none |
| TackSpec.FindRecoveryTime | src/maneuvers.js:167-181 | recovery is the first sample from end+5 on back at entry VMG, else center+30 with the note "never found recovery" |
| TackSpec.RecoveryWindowOf | src/maneuvers.js:190 | the recovery window has `min(6, length - recovered)` samples, none when recovery lies past the window |
| TackSpec.FindRecoveryMetrics | src/maneuvers.js:183-211 | the phase keeps identity, timing, entry VMG, target and loss, and adds at most the "never came back up to speed" note, only when the recovery speed is below 90% of the target; the converse is `TackSpec.RecoveryNoteExact` |
| TackSpec.RecoveryNoteExact | src/maneuvers.js:206-210 | the "never came back up to speed" note is added exactly when the target speed is truthy and the recovery speed is below 90% of it |
| TackSpec.RecoveryWindowShape | src/maneuvers.js:190-191 | the recovery window's k-th sample is the sample `recovered + k` of the data |
| TackSpec.RecoverySpeedWithin | src/maneuvers.js:190-206 | the recovery speed is absent exactly when no sample of the recovery window has `speed`, and otherwise lies within their range |
| TackSpec.RecoveryTwaWithin | src/maneuvers.js:190-203 | the recovery wind angle is absent exactly when no sample of the recovery window has `twa`, and otherwise lies within their range |
| TackSpec.RecoveryMetricsWithin | src/maneuvers.js:183-211 | the recovery window is the `min(6, length - recovered)` samples from recovery, none when recovery lies past the window; recovery speed (recovery wind angle) is absent exactly when none has `speed` (`twa`), else within their range; the only possible new note is "never came back up to speed" |
| TackSpec.AddClassificationStats | src/maneuvers.js:239-255 | the phase keeps identity, timing, notes, entry VMG and loss, and gives a wind-speed baseline only when some sample before the start has `tws` |
| TackSpec.TwsBaselineWithin | src/maneuvers.js:239-255 | the wind-speed baseline is absent (NaN) exactly when no sample before the start has `tws`, else within their range |
| TackSpec.ConvertIndexesToTimes | src/maneuvers.js:213-217 | succeeds exactly when all four indices are inside the window; on sorted data it keeps their order as timestamps |
| TackSpec.InTimeRange | src/maneuvers.js:224-225 | every sample kept by the filter has start ≤ t ≤ recovered, and no more are kept than the data has; completeness is `TackSpec.InTimeRangeExact` |
| TackSpec.InTimeRangeExact | src/maneuvers.js:224-225 | the filter keeps exactly the samples timed within [start, recovered]: each kept sample comes from the data, and each sample in that range is kept |
| TackSpec.InTimeRangeSorted | src/maneuvers.js:224-225 | on sorted data the filtered samples stay sorted, as the filter keeps their order |
| TackSpec.LossStep | src/maneuvers.js:226-233 | a sample without `vmg` changes nothing; one with `vmg` sets `lastTime` to its own time and adds nothing while `lastTime` is 0 |
| TackSpec.LossStepAddsClosingInterval | src/maneuvers.js:227-231 | once `lastTime` is set, a VMG-bearing sample adds the seconds since `lastTime` times its OWN (closing) `vmg` |
| TackSpec.LossFoldAppend | src/maneuvers.js:224-233 | the `.each` visits the kept samples in order: folding one more sample is one more `LossStep` |
| TackSpec.LossFoldUsesClosingVmg | src/maneuvers.js:226-233 | the interval from a sample at 0 knots to one 2 s later at 4 knots covers 8: each interval is weighted by the VMG of the sample closing it |
| TackSpec.LossFoldWithoutVmg | src/maneuvers.js:224-233 | without VMG-bearing samples nothing is covered and `lastTime` stays 0 |
| TackSpec.LossFoldLastTime | src/maneuvers.js:224-233 | after the `.each`, `lastTime` is the time of the last VMG-bearing sample |
| TackSpec.CoveredAtConstantVmg | src/maneuvers.js:220-233 | at constant `vmg` v, with no sample stamped 0, the covered distance is v times the seconds from the first to the last kept sample |
| TackSpec.LossFoldSkipsTimeZero | src/maneuvers.js:226-231 | a VMG sample stamped 0 leaves `lastTime` falsy, so the interval after it is not counted: 0 covered where 1 would be expected |
| TackSpec.NoLossOverWindow | src/maneuvers.js:220-236 | a window at constant `vmg` equal to the entry VMG (no sample stamped 0), with the first and last kept samples at start and recovery, gives loss 0 |
| TackSpec.LossZeroAtEntryVmg | src/maneuvers.js:219-237 | the loss phase gives 0 for a tack that holds entry VMG from start to recovery (no sample stamped 0), with the first and last kept samples at start and recovery |
| TackSpec.NoLossAtIdeal | src/maneuvers.js:235-236 | covering exactly entry VMG times the elapsed seconds gives loss 0 |
| TackSpec.LossSign | src/maneuvers.js:235-236 | the loss is negative exactly when less was covered than the ideal |
| TackSpec.LossFrom | src/maneuvers.js:235-236 | the loss is undefined (NaN) exactly without an entry VMG |
| TackSpec.CalculateLoss | src/maneuvers.js:219-237 | the phase keeps identity, timing, notes and entry VMG, and gives a loss exactly when there is an entry VMG |
| TackSpec.GrowsKeepsNote | src/maneuvers.js:350-360 | a note, once pushed, stays in every later stage of the tack |
| TackSpec.RecoveryPhases | src/maneuvers.js:355-357 | phases 5 to 7 keep time, board, center, start and end, only append notes, and put recovery at least five samples past the end |
| TackSpec.EntryAndEndPhases | src/maneuvers.js:352-353 | phases 3 and 4 keep center and start, only append notes, and put the end in the twelve samples from the center, inside the window |
| TackSpec.AfterCenter | src/maneuvers.js:351-357 | phases 2 to 7 leave the timing indices bounded as the phases place them, with notes only appended |
| TackSpec.IndexPhases | src/maneuvers.js:350-357 | phases 1 to 7 leave center ≤ end < center + 12, start placed or defaulted, recovery ≥ end + 5, all within the window |
| TackSpec.ProcessTack | src/maneuvers.js:350-360 | all nine phases keep identity and notes; they succeed exactly when phases 1 to 7 succeed and recovery lies inside the window |
| TackSpec.ProcessTackTimingOrder | src/maneuvers.js:350-360 | a processed tack on sorted data has center ≤ end ≤ recovered as times, and start ≤ center unless the default start was used |
| TackSpec.NewTack | src/maneuvers.js:340-347 | the new record has the maneuver's time and board, no notes, no position, and no measurement set yet |
| TackUtils.Tack.constructor | src/maneuvers.js:340-347 | a new tack has the maneuver's time and board, no notes, and no other property set yet |
| TackUtils.Tack.FindCenter | src/maneuvers.js:31-43 | the loop leaves the record `TackSpec.FindCenter` gives, and fails exactly where it is `None` |
| TackUtils.Tack.FindStart | src/maneuvers.js:45-65 | the backward loop leaves the record `TackSpec.FindStart` gives, and fails exactly where it is `None` |
| TackUtils.Tack.CalculateEntrySpeeds | src/maneuvers.js:67-130 | the five accumulators and the heading list leave the record `TackSpec.CalculateEntrySpeeds` gives |
| TackUtils.Tack.FindEnd | src/maneuvers.js:132-165 | the extremum loop leaves the record `TackSpec.FindEnd` gives, and fails exactly where it is `None` |
| TackUtils.Tack.FindRecoveryTime | src/maneuvers.js:167-181 | the forward scan leaves the record `TackSpec.FindRecoveryTime` gives |
| TackUtils.Tack.FindRecoveryMetrics | src/maneuvers.js:183-211 | the accumulators leave the record `TackSpec.FindRecoveryMetrics` gives |
| TackUtils.Tack.ConvertIndexesToTimes | src/maneuvers.js:213-217 | the record becomes the one `TackSpec.ConvertIndexesToTimes` gives, failing exactly where it is `None` |
| TackUtils.Tack.CalculateLoss | src/maneuvers.js:219-237 | the filter-and-each pass leaves the record `TackSpec.CalculateLoss` gives |
| TackUtils.Tack.AddClassificationStats | src/maneuvers.js:239-255 | the sums over the samples before the start leave the record `TackSpec.AddClassificationStats` gives |
| TackUtils.Tack.RecoveryPhases | src/maneuvers.js:355-357 | running phases 5 to 7 in place leaves `TackSpec.RecoveryPhases` |
| TackUtils.Tack.EntryAndEndPhases | src/maneuvers.js:352-353 | running phases 3 and 4 in place leaves `TackSpec.EntryAndEndPhases`, failing exactly where it is `None` |
| TackUtils.Tack.AfterCenter | src/maneuvers.js:351-357 | running phases 2 to 7 in place leaves `TackSpec.AfterCenter`, failing exactly where it is `None` |
| TackUtils.Tack.IndexPhases | src/maneuvers.js:350-357 | running phases 1 to 7 in place leaves `TackSpec.IndexPhases`, failing exactly where it is `None` |
| TackUtils.Tack.Process | src/maneuvers.js:350-360 | running all nine phases in place leaves `TackSpec.ProcessTack`, failing exactly where a phase throws |
| TackUtils.UpdateIfPresent | src/maneuvers.js:87-89 | an accumulator is fed a reading only when the sample has it |
| TackUtils.FeedOne | src/maneuvers.js:87-104 | after one more sample, an accumulator has seen exactly the present values of its field |
| TackUtils.FeedEntrySample | src/maneuvers.js:86-105 | one pass of the entry loop keeps all five accumulators and the heading list in step with the samples seen |
| TackUtils.FeedEntryWindow | src/maneuvers.js:86-105 | after the entry loop each accumulator has seen the present values of its field, and the headings are the present headings |
| TackUtils.EntryMeans | src/maneuvers.js:78-112 | the five `result()`s are the means of the present values of their fields |
| TackUtils.EntryAverages | src/maneuvers.js:70-112 | the same means over `EntryWindow`, the slice `getSliceBetweenTimes` returns from 6 s to 2 s before the start, which may end with the first sample later than 2 s before the start |
| TackUtils.FeedRecoverySample | src/maneuvers.js:191-200 | one pass of the recovery loop keeps both accumulators and the heading list in step |
| TackUtils.FeedRecoveryWindow | src/maneuvers.js:190-201 | after the recovery loop the accumulators and headings match the present values |
| TackUtils.RecoveryMeans | src/maneuvers.js:186-204 | the recovery means are those of the present values between the two indices |
| TackUtils.Covered | src/maneuvers.js:220-233 | the `.each` accumulation gives the covered distance of the value-level fold |
| TackUtils.WindSums | src/maneuvers.js:240-251 | the loop before the start gives the sum and count of the present `tws` values and the present `twd` values |
| Analysis.ChoiceAt | src/maneuvers.js:326-336 | the source-order tests throw exactly on a null board that is read, and build a tack exactly when both boards are upwind and the next maneuver starts at least 45 s later, so the "PS" test never fires |
| Analysis.Throws | src/maneuvers.js:326 | an index throws only on a null board, and always on a null board of its own |
| Analysis.Builds | src/maneuvers.js:326-336 | a building index never throws, and the next maneuver then starts at least 45 s later |
| Analysis.TackRange | src/maneuvers.js:338 | the phases' window is the contiguous run of data from the first sample at most 30 s before the maneuver, whose elements but the last are earlier than 120 s after it |
| Analysis.TackAt | src/maneuvers.js:338-360 | with phases that keep identity, the tack built at an index has its maneuver's start time and board |
| Analysis.TacksBefore | src/maneuvers.js:324-365 | no tack before index 2, and at most one tack per index checked; its meaning is stated by `Analysis.TacksSucceedWhen` and `Analysis.TacksFollowSelection` |
| Analysis.AnalyzeTacksSpec | src/maneuvers.js:318-368 | at most one tack per maneuver from the third on; its meaning is stated by `Analysis.TacksCarryManeuver`, `Analysis.TacksAreSpaced` and `Analysis.NullBoardThrows` |
| Analysis.SelectedBelow | src/maneuvers.js:324-336 | the selected indices lie in [2, n), pass the tests, increase, and include every index that passes |
| Analysis.PhasesKeepIdentity | src/maneuvers.js:340-360 | the nine phases keep the time and board a tack was created with |
| Analysis.TacksSucceedWhen | src/maneuvers.js:324-362 | the loop gets through the indices below n exactly when none reads a null board and every selected tack gets through its phases |
| Analysis.TacksFollowSelection | src/maneuvers.js:324-362 | a successful loop yields one tack per selected index, in index order, each the processed window around its maneuver |
| Analysis.ThrowIsFinal | src/maneuvers.js:318-368 | once an iteration throws, the whole call has thrown |
| Analysis.SpacedUnder | src/maneuvers.js:332-336 | for time-ordered maneuvers and phases that keep tack times, consecutive tacks start at least 45 s apart |
| Analysis.TacksCarryManeuver | src/maneuvers.js:340-343 | each tack has the start time and board of the maneuver selected for it |
| Analysis.TacksAreSpaced | src/maneuvers.js:332-336 | `analyzeTacks` on time-ordered maneuvers gives tacks at least 45 s apart |
| Analysis.NoTacksFromShortSequences | src/maneuvers.js:324 | fewer than three maneuvers give no tacks |
| Analysis.SelectionExample | src/maneuvers.js:324-336 | an upwind change followed 30 s later by another is skipped; the last one is kept |
| Analysis.NullBoardThrows | src/maneuvers.js:326 | a null board at a checked index makes the whole call throw |
| Analysis.BuildTack | src/maneuvers.js:338-360 | a new `Tack`, run through the phases on the window around the maneuver, yields the tack the specification gives, failing exactly where it is `None` |
| Analysis.TackLoop | src/maneuvers.js:324-365 | the loop's pushed tacks are, record by record, the specification's tacks, and it fails exactly where the specification is `None` |
| Analysis.AnalyzeTacks | src/maneuvers.js:318-368 | `analyzeTacks` returns the specification's tacks record by record, and fails exactly where it throws |

## Left out

- Module wiring (`_.extend(exports, …)`, the UMD header) and the `console.info` call in `calculateEntrySpeeds` are left out. They compute nothing.
- `utilities.circularMean` and `utilities.createChangeDataSegments` are in `calcs.js`, which is not part of this model.
  - `circularMean` is a parameter.
  - `findManeuvers` and `findLegs` are modelled only through their classifiers `board` and `leg`. The maneuver list that `analyzeTacks` consumes is an input. Its boards are optional, because `board` yields null for samples without `twa`.
- The display windows `tack.data` (20 s before, 120 s after) and `tack.track` (15 s before, 30 s after) are left out. No phase reads them.
- The `timing` object's properties `center`, `start`, `end` and `recovered` are integer fields of the record. `convertIndexesToTimes` replaces the indices with the samples' timestamps, not with `moment` objects.
- Floating point is modelled as exact reals. A division that gives NaN, such as `twsSum / twsCount` with no `tws` values or an `undefined` entry VMG in the loss, is modelled as `None`.
- A JavaScript TypeError is modelled as failure (`ok == false` or `None`) of the phase and of the whole `analyzeTacks` call, as the code behaves. The call throws; no tack is returned. Examples: `data[-1].lon` when the first sample matches the center time, `data[j]` past the window in `findEnd` or `convertIndexesToTimes`, and `.charAt` of a null board.
- The tack object's properties are one record-valued field of class `Tack`; each phase method replaces that field. Aliasing among the `tack` objects does not arise, since each is fresh.
- Telemetry.Present: stated only as a length bound; what it holds is stated by `Telemetry.PresentEmpty`, `Telemetry.PresentWithin` and the accumulator methods.
- `_.sortedIndex` is modelled, on sorted data, by the index it returns (`Slicing.LowerBound`), not by its binary search. On unsorted data the binary search can return a different index; the model does not follow it there.
- Behaviour of the code worth knowing, which the model follows:
  - The covered distance multiplies each interval by the `vmg` of the sample that closes it, not of the one that opens it.
  - `if ( lastTime )` treats a VMG sample stamped 0 like no earlier sample, so the interval that follows it is not counted.
  - `loss = -c · (ideal - covered)` is negative when the boat falls short of the ideal.
  - A tack whose phases throw aborts the whole call instead of being omitted.
  - The start and the default indices are not forced into the order start ≤ center.
