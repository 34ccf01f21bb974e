# Theremin core in Dafny

A model of the logic inside `scripts/script.js` of the Theremin web page. The page is a pointer-driven
tone generator with a logarithmic piano-roll grid and a two-handle range slider. Three parts of the
script hold logic of their own, and the model covers them:

- **WaveGenerator** (`wave_generator.dfy`, module `WaveGen`): a sparse table of voices keyed by
  integer id. Each voice is an oscillator feeding its own gain, and all voices are summed on one
  master gain bus. `initAudio` creates a voice once. `playWave` and `stopWave` are guarded ramps
  that keep a shared `activeOscillators` counter, which `stopWave` floors at 0. Every `playWave` or
  `stopWave` that acts, and every `setVolume`, sends the master bus to
  `globalVolume / max(1, activeOscillators)`; a new generator's bus starts at the node's default
  gain 1 whatever the volume. The audio backend is abstract: a gain
  is a `Param` holding its instantaneous `value`, the `target` of the last ramp and that ramp's
  duration. Scheduling a ramp records the target, and `Settle(id)` stands for the backend
  finishing a voice's ramp.
- **DoubleRange** (`double_range.dfy`, module `Range`): the two sliders, their normalised and
  absolute boundaries, and the minimum-closure rule of `#startInput` and `#endInput`. The
  floating-point curves behind `#logConvert` and `#absConvert` are constructor parameters
  (`toFrequency`, `toPosition`). The only thing assumed about them is `ConvertersInverse`: going
  from a position in [0, 1] to a frequency and back returns the same position. This is a
  predicate inside `Valid()`, not an axiom.
- **Pure helpers**:
  - `scale.dfy` (module `Scale`): the clamps in `normalizeToLog` and `absToLogNormalize`, and
    `absToNorm`.
  - `tones.dfy` (module `Tones`): the name lookup of `getToneName` from a rounded tone, including
    JavaScript's truncating `%`, and the black/white key classification.
  - `log_grid.dfy` (module `Grid`): the `while` loop of `LogGrid.renderNotes`, as the sequence of
    strokes it draws.
  - `js.dfy` (module `Js`): the JavaScript semantics these rely on. These are `x || d` on an
    optional number, `%` on a negative dividend, and `Math.round`.
  - `wrappers.dfy`: `Option`.

Where the documented intent and the code differ, the model follows the code:

- `initAudio` does not set the new voice's frequency. Line 85 passes the oscillator node, not the
  id, to `setFrequency`, whose guard then finds no entry (`Key.NodeObject`).
- The guards of `playWave`/`stopWave` read the instantaneous gain, not the ramp target. Two
  `playWave` calls inside one attack time therefore count the same voice twice
  (`UnsettledPlayCountsTwice`, `DoublePlayScenario`). Likewise two `stopWave` calls inside one
  release time decrement the counter twice when another voice is sounding
  (`UnsettledStopCountsTwice`); otherwise the floor at 0 keeps the count (`DoubleStopScenario`).
  The counter drifts only on such a repeat in the same direction. A play on a voice not heading to full gain (silent, or
  partway through its release) and a stop on a voice heading to full gain (at it, or partway
  through its attack) keep it equal to the number of voices ramping to full gain
  (`PlayKeepsCount`, `StopKeepsCount`).
- A negative tone gives `undefined` (None) as its name, not a wrapped-around name. The exception
  is a multiple of 12: JavaScript's remainder is then `-0`, which indexes "A".
- When `initStart` is absent, `startAbs` defaults to `max`, not `min`. That state does not satisfy
  `Valid()` unless the curve happens to send position 0 to `max` (constructor postcondition).
- The correction in `#startInput` is computed from `#absConvert(endAbs)`, not from the end
  slider's value. The two agree exactly when `AbsConvert(endAbs)` equals the end slider, which
  `Valid()` guarantees; outside it the committed start can break the closure gap.

## Model

| member | source | states |
|---|---|---|
| Js.Or | scripts/script.js:221-222 | JavaScript's or-operator on an optional number agrees with present-or-default except on a present 0, which gives the fallback |
| Js.Rem | scripts/script.js:37 | JavaScript `%` for a positive divisor: equals Dafny's `%` on non-negative dividends; on negative ones lies in (-d, 0], is 0 exactly when Dafny's remainder is 0, and otherwise is it minus d |
| Js.Round | scripts/script.js:36 | `Math.round` returns an integer within one half of its argument, halves going up |
| Js.RoundIsUnique | scripts/script.js:36 | any integer in (x - 1/2, x + 1/2] is `Math.round(x)` |
| Scale.Clamp01 | scripts/script.js:515-517 | the normalised value lands in [0, 1], is unchanged inside it, and is sent to 0 below and to 1 above |
| Scale.Clamp01Monotone | scripts/script.js:517 | the clamp preserves order |
| Scale.LogMin | scripts/script.js:522-524 | the lower bound lies in [1, max] whenever max >= 1; it is kept when already in range, raised to 1 when below, and is max whenever max < 1 or max < min |
| Scale.AbsToNorm | scripts/script.js:538-540 | defined exactly when max != min; then it inverts linear interpolation (`min + r * (max - min) == val`), maps min to 0 and max to 1 |
| Scale.AbsToNormMonotone | scripts/script.js:538-540 | for min < max the map preserves order |
| Scale.AbsToNormInUnit | scripts/script.js:538-540 | points of [min, max] land in [0, 1] |
| Tones.NameOfTone | scripts/script.js:15-38 | for a tone >= 0 the name is `TONE_NAMES[tone mod 12]`; a negative tone has a name only when it is a multiple of 12, and that name is "A" |
| Tones.ToneName | scripts/script.js:35-38 | for an exact tone >= -1/2 the name exists and is `TONE_NAMES[round(tone) mod 12]` |
| Tones.NameIsPeriodic | scripts/script.js:35-38 | for t >= 0, tones t and t + 12 have the same name (a negative t that is not a multiple of 12 has none, while t + 12 may) |
| Tones.ReferenceIsA | scripts/script.js:12-15 | tone 0 (13.75 Hz) and tone 12 (27.5 Hz) are both named "A" |
| Tones.IsBlackNote | scripts/script.js:304-319 | `blackNotes.includes(note % 12)` under JavaScript `%` holds exactly for non-negative notes whose Euclidean remainder is 1, 4, 6, 9 or 11 |
| Tones.BlackIndicesAreSharps | scripts/script.js:304 | within one octave, an index is in `blackNotes` exactly when its `TONE_NAMES` entry contains '#' |
| Tones.BlackKeysAreSharps | scripts/script.js:319 | for every integer note, `blackNotes.includes(note % 12)` holds exactly when the note's looked-up name exists and contains '#' |
| WaveGen.RampGain | scripts/script.js:103-105 | a new ramp starts from the current gain value, records the new target and duration, and leaves the frequency alone |
| WaveGen.Divisor | scripts/script.js:136 | the bus divisor `max(1, n)` is at least 1, equals n when n >= 1, and is 1 when no voice is active |
| WaveGen.BusLevel | scripts/script.js:134-141 | the bus level times the divisor is the global volume; with at most one voice it is the volume; it lies in [0, volume] for a non-negative volume |
| WaveGen.PlayKeepsCount | scripts/script.js:95-109 | playing a voice that the guard lets through and that is not already heading to full gain adds exactly one sounding voice, so a counter that matched the sounding voices still matches after the increment, and gains stay in range |
| WaveGen.StopKeepsCount | scripts/script.js:112-126 | stopping a non-silent voice that is heading to full gain removes exactly one sounding voice; the counter was then at least 1, so `max(0, n - 1)` still matches |
| WaveGen.PlayActs | scripts/script.js:96-98 | for a settled voice, `playWave` acts exactly when the voice is not sounding |
| WaveGen.StopActs | scripts/script.js:113-115 | for a settled voice whose ramps head to 0 or 1, `stopWave` acts exactly when the voice is sounding |
| WaveGen.UnsettledPlayCountsTwice | scripts/script.js:98-106 | in any table, a voice whose attack is scheduled but unfinished passes the guard again, and the new ramp leaves the set of sounding voices as it was while the counter goes up |
| WaveGen.UnsettledStopCountsTwice | scripts/script.js:115-123 | in any table, a voice whose release is scheduled but unfinished passes the guard again, and the new ramp leaves the set of sounding voices as it was, so the counter goes down twice for one voice unless the floor at 0 stops it |
| WaveGen.WaveGenerator.constructor | scripts/script.js:46-64 | volume from the slider, counter 0, empty table, `min`/`max` from the options or 20/20000, and a bus at the default gain 1 |
| WaveGen.WaveGenerator.IsAudioInitialized | scripts/script.js:90-92 | true exactly when the table has an entry for id, which `InitAudio` establishes; an id without an entry is never sounding |
| WaveGen.WaveGenerator.InitAudio | scripts/script.js:66-92 | an existing id changes nothing; a new id adds exactly one silent entry with no frequency set and leaves the other voices alone; afterwards `IsAudioInitialized(id)` holds; counter, volume and bus are unchanged |
| WaveGen.WaveGenerator.PlayWave | scripts/script.js:94-109 | a missing id, or a voice whose gain value is already 1, changes nothing; otherwise the voice ramps to 1 over ATTACK_TIME, the counter goes up by exactly 1, and the bus ramps to volume / max(1, counter) over RELEASE_TIME; a counter that matched the sounding voices still matches unless the voice was already sounding |
| WaveGen.WaveGenerator.StopWave | scripts/script.js:111-126 | a missing id, or a voice whose gain value is 0, changes nothing; otherwise the voice ramps to 0 over RELEASE_TIME, the counter becomes max(0, counter - 1), and the bus ramps to its share; a counter that matched the sounding voices still matches when the voice was sounding or the counter was 0 |
| WaveGen.WaveGenerator.SetFrequency | scripts/script.js:128-132 | an unknown key changes nothing; otherwise only that voice's frequency changes, to the given value |
| WaveGen.WaveGenerator.SetVolume | scripts/script.js:134-137 | stores the volume and sets the bus at once to volume / max(1, counter); voices and counter are unchanged |
| WaveGen.WaveGenerator.AdjustVolume | scripts/script.js:139-141 | records the bus target volume / max(1, counter) and the ramp time RELEASE_TIME, leaving the bus's current value as it is |
| WaveGen.WaveGenerator.Settle | scripts/script.js:103-105 | the backend completing voice `id`'s ramp: its value becomes its target and nothing else changes |
| Range.ClosedStart | scripts/script.js:240-250 | a start that stays minClosure below the end slider is kept verbatim; when the end frequency converts back to the end slider, the committed start is min(proposed, end - minClosure), so it is at most the proposal and keeps the closure gap |
| Range.ClosedEnd | scripts/script.js:252-262 | the mirror image: the committed end is max(proposed, start + minClosure) |
| Range.ClosedStartIdempotent | scripts/script.js:240-250 | a committed start is accepted unchanged when proposed again |
| Range.DoubleRange.LogConvert | scripts/script.js:268-270 | a position in [0, 1] converts by the curve; one below 0 converts as 0 and one above 1 as 1 |
| Range.DoubleRange.AbsConvert | scripts/script.js:264-266 | under the inverse assumption, a frequency that came from a position in [0, 1] converts back to that position |
| Range.DoubleRange.ConvertRoundTrip | scripts/script.js:264-270 | under the inverse assumption, `#absConvert(#logConvert(x))` is x clamped to [0, 1] |
| Range.DoubleRange.constructor | scripts/script.js:204-222 | fields from the options (minClosureNorm defaults to 0; each position is the converted option when truthy, else 0 for start and 1 for end; both absolute values default to `max`); without initStart the object is not Valid unless `toFrequency(0) == max`; with consistent options it is Valid |
| Range.DoubleRange.StartInput | scripts/script.js:240-250 | the start slider becomes `ClosedStart(v, end slider, #absConvert(endAbs), minClosure)`, startNorm equals it and startAbs is its `#logConvert`, the end boundary is untouched; from a Valid state the result is Valid and startNorm is min(v, endNorm - minClosure) |
| Range.DoubleRange.EndInput | scripts/script.js:252-262 | the mirror image for the end slider, committing max(v, startNorm + minClosure) from a Valid state |
| Grid.StrokeFor | scripts/script.js:319-330 | the stroke drawn for a note carries that note; its colour and label are stated by `StrokeColour` |
| Grid.StrokeColour | scripts/script.js:304-330 | a note's stroke is black exactly when its `TONE_NAMES` entry is a sharp, and is labelled with that name only when labels are on |
| Grid.StrokesUpToShape | scripts/script.js:309-313 | after the loop has stepped through notes 1..n, every stroke is the stroke of a note in 1..n whose band reaches scaleMin |
| Grid.StrokesUpToAscending | scripts/script.js:309-313 | the notes of those strokes strictly increase |
| Grid.StrokesUpToCover | scripts/script.js:309-313 | every note in 1..n whose band reaches scaleMin has a stroke |
| Grid.LogGrid.constructor | scripts/script.js:274-283 | scaleMin is `begin` or else 0, scaleMax `end` or else 20000 (JavaScript truthiness), labels off |
| Grid.LogGrid.RenderNotes | scripts/script.js:296-334 | the loop yields strokes with strictly increasing notes, each the stroke of its note, and note k is drawn exactly when the start band ends below scaleMax, k >= 1, k's band reaches scaleMin, and all bands of notes 1..k-1 end below scaleMax |

## Left out

- DOM wiring: element lookups, the `Cursor` class, all event listeners, the touch handlers'
  `identifier > 0` test, `getFrequencyLabel` markup and `ToggleFullScreen`. This is page glue
  that only dispatches to the operations above.
- DoubleRange's `input`/`change` listeners: the dispatch on the input's name and the
  `oninput`/`onchange` callbacks that copy the bounds to the grid and the generator. These are
  glue.
- Floating-point arithmetic: `getTone`, `getToneNearFrequency`, `notesCount`, the power in
  `normalizeToLog`, the logarithms in `absToLogNormalize`, and `getFrequency`'s `toFixed(2)`. The
  model takes their results as inputs: `exactTone`, `midFrequency`, `boundaryAbove`,
  `startBoundary`, `toFrequency`, `toPosition`. NaN and infinities are not modelled, except the
  division by zero in `absToNorm`, which becomes None.
- The Web Audio timeline: `currentTime`, `cancelAndHoldAtTime`, and the real-time progress of a
  ramp. A ramp is modelled as its recorded target, and `Settle` completes it at once. Ramps that
  stop partway are not modelled.
- SetVolume: sets the bus's value and target at once. In Web Audio, an `#adjustVolume` ramp
  scheduled up to RELEASE_TIME earlier would still run after that `setValueAtTime`. This
  interaction is not modelled.
- AdjustVolume: the source schedules only `linearRampToValueAtTime`, with no `cancelAndHoldAtTime`
  or `setValueAtTime` before it, so the ramp runs from the last scheduled event rather than from
  the current value. With the timeline abstracted to a recorded target, the model does not tell
  the two ramp origins apart.
- Node creation and connection, and `oscillatorNode.start()`: every table entry is a running
  voice. A voice whose frequency was never set plays at the backend's default, shown as None.
- The volume slider's value is a string that JavaScript converts to a number. The model takes a
  real.
- StartInput: requires the proposed value to be in [0, 1]. This is the browser's sanitisation of
  range inputs, stated as a precondition. The value the handler itself assigns is taken exactly,
  so the model assumes a slider step of "any". It is guaranteed to lie in [0, 1] only from a
  Valid state.
- EndInput: the same precondition and the same assumption.
- LogGrid.renderNotes: the `frequency` variable, canvas clearing, stroke positions and widths,
  and the `(frequency.toFixed(1))` part of a label are not modelled. Termination relies on a
  ghost bound: a note whose band reaches scaleMax. Such a note exists because band edges grow
  exponentially.
