# VU meter level model

A Dafny model of the level logic of the `VUMeter` browser widget
(`js/meter.js`): configuration resolution from defaults, named presets and
explicit settings; clamping of incoming decibel samples; peak ballistics
(instant attack, linear release in dB/s); the three-phase peak-hold tracker
(rise, hold for `holdTime` ms, decay in dB/s down to `dbMin`); the `update`
step that ties them together; the linear dB-to-percent scale, the colour
zones and the tick legend; and the value decisions one `paint` frame makes.

Numbers are JavaScript numbers seen as extended reals
(`NegInf | PosInf | NaN | Fin(real)`) with JavaScript's comparison rules
(every comparison with NaN is false). The two clocks (`performance.now` for
the ballistics' elapsed time, `Date.now` for the hold tracker) are separate
parameters of `Update`.

Modules, one per concern of the source file:

- `Wrappers`, `ExtendedReal`: optional values and JavaScript numbers.
- `MeterConfig`: presets, defaults, the constructor's merge, `setPreset`.
- `Scale`: `clampDb`, `dbToPercent`, `getColorForLevel`, gradient stops.
- `TickLabels`, `Ticks`: the tick lists built by `createScale`, the drawing filter and the labels.
- `Dynamics`: `applyBallistics`, `updateHold`, `resetHold`'s cleared state.
- `Meter`: the level state, construction, `update`, `resetHold`, `setPreset` on a live meter.
- `Paint`: one `paint` frame as a pure view.

Behaviours of the code a reader might not expect, all kept in the model:

- `clampDb(+Infinity)` is `dbMin`: every non-finite input, plus infinity included, fails `Number.isFinite` (js/meter.js:546).
- `update({})` is not a no-op: it always moves `lastUpdateTime` (js/meter.js:348-350).
- Hold decay is not linear over several calls: the timestamp is not refreshed while decaying, so each call subtracts the whole time since the window closed (js/meter.js:401-405). `Dynamics.DecayCompounds` and `Dynamics.DecayCompoundsExample` state this.
- The hold tracker compares the new peak with the held value before decaying it, so the held value can end below the peak just stored (js/meter.js:398-405, `Meter.HoldCanFallBelowPeak`).
- An external hold is stored without a timestamp (js/meter.js:369-372), so it inherits the timestamp of the last rising peak. The next peak at or below it leaves it alone while that peak's hold window is still open, and otherwise decays it by all the time since that window closed (js/meter.js:401-405). On a new meter the timestamp is the epoch (js/meter.js:142), so the hold drops straight to `dbMin` (`Meter.ExternalHoldIsNotTimestamped`).
- `setPreset` overlays and never resets: `showLUFS`, set only by `broadcast`, survives a switch to any other preset (js/meter.js:599, `MeterConfig.LufsSurvivesPresetSwitch`).
- `values.hold` is initialised to minus infinity and never written; an external `hold` sample goes to the hold tracker's value (js/meter.js:369-372).

## Model

| member | source | states |
|---|---|---|
| ExtendedReal.LessIsStrictTotalOrder | js/meter.js:528-529 | away from NaN, JavaScript `<` as modelled is a strict total order and `<=` its reflexive closure, so the source's comparisons read as ordinary order on the extended reals |
| ExtendedReal.NaNBreaksComplement | js/meter.js:528-529 | with NaN both `NaN <= b` and `b < NaN` are false, which is why NaN passes both range tests of `dbToPercent` |
| MeterConfig.LookupPreset | js/meter.js:15-60 | exactly the four names `minimal`, `standard`, `broadcast`, `compact` find a preset |
| MeterConfig.ResolveConfig | js/meter.js:127-130 | every key given explicitly (including single colour and threshold keys) survives the merge; the recorded preset name is the given one or `standard` |
| MeterConfig.AbsentKeysFallBack | js/meter.js:127-130 | key by key, whatever else the caller set: an absent preset key comes from the effective preset (`showLUFS` from the defaults when the preset lacks it), every other absent key, colour key and threshold key from the defaults |
| MeterConfig.ExplicitRoundTrip | js/meter.js:128-130 | spelling out every key of a configuration reproduces it: defaults and presets always lose to explicit keys |
| MeterConfig.UnknownPresetIsStandard | js/meter.js:127 | an unknown or absent preset name resolves exactly like `standard`, apart from the recorded name |
| MeterConfig.EmptyConfigIsStandard | js/meter.js:66-114 | an empty configuration is the defaults with the `standard` bundle (width 44) over them |
| MeterConfig.SetPreset | js/meter.js:596-602 | an unknown name changes nothing; a known one sets exactly its bundle's keys and leaves range, timing, ballistics, colours, thresholds and the recorded name alone |
| MeterConfig.ConstructThenSetPreset | js/meter.js:596-602 | constructing with a preset equals constructing with the default and calling `setPreset`, apart from the recorded preset name (which `setPreset` never changes), when the caller sets none of the preset keys |
| MeterConfig.SetPresetIdempotent | js/meter.js:599 | applying a preset twice equals applying it once |
| MeterConfig.LufsSurvivesPresetSwitch | js/meter.js:599 | after `broadcast`, switching to any preset keeps the LUFS display on |
| Scale.ClampDb | js/meter.js:545-548 | non-finite input (NaN, both infinities) gives `dbMin`; finite input lands in `[dbMin, dbMax]`, unchanged when already there, at the nearer end otherwise |
| Scale.ClampIdempotent | js/meter.js:545-548 | clamping twice equals clamping once |
| Scale.DbToPercent | js/meter.js:526-533 | the result is in [0, 100] for every non-NaN input, 0 at or below `dbMin` (minus infinity included), 100 above `dbMin` and at or above `dbMax`; NaN in gives NaN out |
| Scale.DbToPercentMonotone | js/meter.js:526-533 | the mapping never reverses order, whatever the range |
| Scale.DbToPercentStrictInRange | js/meter.js:526-533 | on a non-degenerate range the mapping is strictly increasing inside it, so it both preserves and reflects order |
| Scale.EndPoints | js/meter.js:526-533 | on a non-degenerate range `dbMin` maps to 0 and `dbMax` to 100 |
| Scale.PercentRoundTrip | js/meter.js:532 | inside the range, the linear inverse recovers the level from its percentage |
| Scale.ColorForLevel | js/meter.js:538-543 | danger colour from the danger threshold up, warning colour from the warning threshold up, peak colour below, and the peak colour for NaN, which fails both `>=` tests |
| Scale.ZoneMonotone | js/meter.js:538-543 | with ordered thresholds a louder level never gets a quieter zone; NaN is always in the normal zone |
| Scale.Stops | js/meter.js:557-559 | both gradient stops lie in [0, 100] and are ordered when the thresholds are; on a non-degenerate scale a threshold at or below `dbMin` puts its stop at 0 and one at or above `dbMax` at 100, as `dbToPercent` does (a danger threshold above `dbMax` removes the red zone) |
| Scale.StopsReadBack | js/meter.js:557-559 | a threshold strictly inside the scale gets the stop position that maps back to that threshold, so each stop is `dbToPercent` of its threshold |
| Scale.GradientColorAt | js/meter.js:561-567 | the gradient shows the peak colour below the warning stop, the warning colour from the warning stop up to the danger stop, and the danger colour at and above both stops (at a shared stop the upper colour shows; out-of-order stops collapse onto the earlier one) |
| Scale.GradientAgreesWithColorForLevel | js/meter.js:554-567 | at the height a level reaches, the peak bar's gradient shows the colour `getColorForLevel` gives that level |
| TickLabels.NatToString | js/meter.js:289 | the decimal form is non-empty, all digits, and starts with 0 only for zero |
| TickLabels.Label | js/meter.js:289 | a label starts with `+` exactly for positive values, `-` exactly for negative ones, and is `0` exactly for zero |
| TickLabels.LabelRoundTrip | js/meter.js:289 | reading a label back gives the tick's value |
| TickLabels.LabelInjective | js/meter.js:289 | distinct ticks have distinct labels |
| Ticks.MajorTickList | js/meter.js:251-260 | the majors are exactly +6 (when `dbMax >= 6`), 0, -4 to -40 by 4 and -50 downwards by 10, each run stopping below `dbMin`, listed strictly descending |
| Ticks.MinorTickList | js/meter.js:262-271 | the minors are exactly the in-range non-major values +5 to -3 and -2 to -38 by 4 down to `dbMin`, without duplicates and disjoint from the majors |
| Ticks.TickLists | js/meter.js:248-271 | both lists together, with all the properties above |
| Ticks.OnScale | js/meter.js:275 | the drawing filter keeps exactly the values in `[dbMin, dbMax]`, preserving descending order and absence of duplicates |
| Ticks.ScaleTicks | js/meter.js:273-310 | the drawn majors are exactly the in-range major values, strictly descending, each with its label and `dbToPercent` position; the drawn minors are exactly the in-range minor values, without duplicates |
| Dynamics.ApplyBallistics | js/meter.js:382-393 | a louder (or equal) target is returned at once; a quieter one is approached by `releaseRate * dt` dB but never passed, so the result lies in [target, current]; a non-finite current counts as `dbMin` |
| Dynamics.BallisticsFrameRateIndependent | js/meter.js:389-391 | two release steps of `dt1` and `dt2` towards the same target equal one step of `dt1 + dt2` |
| Dynamics.BallisticsReachesTarget | js/meter.js:389-391 | once `releaseRate * dt` covers the gap, the result is exactly the target |
| Dynamics.BallisticsExample | js/meter.js:382-393 | at 20 dB/s one second of release from 0 towards -90 gives -20; from minus infinity any target is adopted |
| Dynamics.UpdateHold | js/meter.js:395-407 | a higher peak is adopted and timestamped; inside the window nothing changes; past it the value falls by `decayRate` per second since the window closed, floored at `dbMin`, never rises, and keeps its timestamp |
| Dynamics.ResetThenRise | js/meter.js:607-610 | after `resetHold` any finite peak is adopted at once |
| Dynamics.DecayMonotoneInTime | js/meter.js:401-405 | past the window, a later call leaves the held value no higher than an earlier one |
| Dynamics.DecayCompounds | js/meter.js:401-405 | two decaying calls take the held value at least as low as one call at the later time: decay compounds |
| Dynamics.DecayCompoundsExample | js/meter.js:401-405 | with hold 1500 ms and 20 dB/s, -6 dB at t=0 reads -16 at 2000 ms, then -36 at 2500 ms where linear decay would give -26 |
| Meter.Create | js/meter.js:125-146 | a new meter's configuration is the resolved one (explicit keys, then the named preset, then the defaults), it stores every level at minus infinity, holds nothing, and satisfies the level invariant |
| Meter.PeakStep | js/meter.js:352-361 | with ballistics on, the smoothed and stored peak is `applyBallistics` of the previous smoothed peak, the clamped sample and `dt`; with ballistics off the stored peak is the clamped sample and the smoothed peak is untouched; the stored peak is never below the clamped sample; the hold tracker sees the stored peak |
| Meter.Update | js/meter.js:347-373 | only supplied fields change; the peak is smoothed by `applyBallistics` over `(now - lastUpdateTime) / 1000` s when ballistics are on; a peak without an external hold leaves the hold state `updateHold` produced from the stored peak and `wallNow`; rms and an external hold are clamped, lufs is stored raw, an external hold overrides the tracker's value but not its timestamp, which is the one `updateHold` left (or the old one when no peak came), the clock always advances and `values.hold` is never written |
| Meter.ResetHold | js/meter.js:607-610 | only the hold state changes, to minus infinity at time 0, and the level invariant survives |
| Meter.SetMeterPreset | js/meter.js:596-602 | only the configuration changes, an unknown name changes nothing, and the level invariant and configuration well-formedness survive |
| Meter.EmptyUpdateOnlyAdvancesClock | js/meter.js:347-350 | an update with no fields changes nothing but `lastUpdateTime` |
| Meter.UpdatePreservesValid | js/meter.js:347-373 | with an ordered range, non-negative rates and a clock that does not run backwards, every stored, smoothed and held level stays unset or within `[dbMin, dbMax]` |
| Meter.UpdateIsFieldByField | js/meter.js:352-372 | a multi-field update equals single-field updates at the same instant in the order peak, rms, lufs, hold |
| Meter.SmoothingIgnoresUpdateCadence | js/meter.js:348-356 | delivering the same sample at `t1` and again at `t2` smooths the peak exactly as one delivery at `t2` |
| Meter.HoldCanFallBelowPeak | js/meter.js:395-407 | a peak of -10 dB arriving 3 s after a -6 dB hold leaves the hold at -36 dB, below the stored peak |
| Meter.ExternalHoldIsNotTimestamped | js/meter.js:369-372 | on a new meter, a -3 dB external hold followed 16 ms later by a -20 dB peak leaves the hold at -90 dB with its timestamp still at the epoch |
| Meter.NonFiniteSamplesReadAsFloor | js/meter.js:352-372 | a NaN or infinite rms, hold or (without ballistics) peak sample is stored as `dbMin` |
| Paint.PaintView | js/meter.js:428-516 | each bar's length and the hold marker's position are `dbToPercent` of the level they show; each optional bar and readout exists exactly when its flag is on; the clip state is on exactly when the hold is at or above `dbClip`; the hold readout is the placeholder exactly when the hold is not above `dbMin`; the LUFS readout shows a value exactly when LUFS is above -70, and the value it shows is the stored LUFS; the zone gradient is applied exactly when the peak bar is longer than 0 |
| Paint.LengthsInRange | js/meter.js:433-482 | on a valid meter every bar length and the hold marker position lie in [0, 100] (the LUFS bar unless LUFS is NaN) |
| Paint.PlaceholderIffAtFloor | js/meter.js:494-496 | on a valid meter the hold readout shows `---` exactly when the held level is at or below `dbMin` |
| Paint.FreshMeterPaintsEmpty | js/meter.js:133-145 | before any update every bar is empty, no gradient is applied, both readouts show `---` and nothing clips |
| Paint.FullScaleSamples | js/meter.js:526-533 | a sample at or above `dbMax` fills the peak bar; without ballistics a sample at or below `dbMin`, or +infinity, empties it |
| Paint.ExternalHoldClips | js/meter.js:484-490 | an external hold at or above `dbClip` shows the clip state in the next frame |

## Left out

- The DOM: `render`, `createBar`, the element building and style writes in `createScale` and `paint`, `destroy`. After `setPreset` the source keeps references to elements from the previous render and keeps writing to them; those elements are detached and invisible, so the view follows the current flags.
- `applyDimensions` (js/meter.js:326-337) and the compact-scale class: pixel arithmetic for the container, no level logic.
- The animation loop (`startAnimation`, `stopAnimation`): host scheduling; one frame is `Paint.PaintView`.
- The clocks `performance.now` and `Date.now`: they are the parameters `now` and `wallNow`. Both are real numbers of milliseconds.
- CSS gradient strings, `backgroundSize` values and `toFixed(1)` formatting: string rendering of reals; the model records which branch is taken and the level shown. The colour the gradient shows at a height is modelled by `Scale.GradientColorAt` under the CSS stop rules stated in its row, not by rendering the string.
- Configuration numbers (`dbMin`, `dbMax`, `dbClip`, `holdTime`, rates, thresholds, sizes) are finite reals; infinite or NaN settings are not modelled. This drops two behaviours of the source: with `dbMin: -Infinity` the loop at js/meter.js:258 never ends, so `createScale` hangs the page whenever `showScale` is on (the model's termination measure for that loop relies on `dbMin` being finite); and `holdTime: Infinity`, a hold that never decays because js/meter.js:401 is never true, cannot be expressed.
- IEEE-754 rounding: finite values are mathematical reals.
- Non-number inputs (`null`, strings) to `update` and configuration keys present with the value `undefined`: the model takes every supplied field to be a number and every present key to carry a value.
- Object-prototype keys such as `constructor` used as a preset name: the source's lookup finds an inherited property there; the model treats every name other than the four presets as unknown.
- Preset colours: none of the four presets sets `colors`, so the middle term of the colour merge (js/meter.js:129) is always empty and presets carry no colour field.
- js/dark-mode.js: local storage, media queries, custom events and a two-value toggle, with no level logic.
