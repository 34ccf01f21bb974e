/**
 * The integer side of `ToneConverter` and of the key colouring in
 * `LogGrid.renderNotes`: a tone is a whole number of semitones above the
 * reference note A (13.75 Hz); its name is looked up cyclically with period
 * twelve, and the notes at positions 1, 4, 6, 9 and 11 of the octave are
 * drawn as black keys. The logarithm that turns a frequency into a tone is
 * floating point and is taken as the input `exactTone`.
 */
module Tones {
  import opened Wrappers
  import Js

  /** `ToneConverter.OCTAVE`. */
  const OCTAVE: int := 12

  /** `ToneConverter.TONE_NAMES`, starting from A. */
  const TONE_NAMES: seq<string> := ["A", "A#", "B", "C", "C#", "D", "D#", "E", "F", "F#", "G", "G#"]

  /** The `blackNotes` list of `renderNotes`. */
  const BLACK_NOTES: seq<int> := [1, 4, 6, 9, 11]

  /**
   * `TONE_NAMES[tone % OCTAVE]` with JavaScript's `%`: a negative tone gives a
   * negative index and so `undefined` (None), except when the remainder is
   * `-0`, which indexes like 0 and gives "A".
   */
  function NameOfTone(tone: int): (r: Option<string>)
    ensures tone >= 0 ==> r == Some(TONE_NAMES[tone % OCTAVE])
    ensures tone < 0 ==> (r.Some? <==> tone % OCTAVE == 0)
    ensures tone < 0 && r.Some? ==> r.value == "A"
  {
    var i := Js.Rem(tone, OCTAVE);
    if 0 <= i then Some(TONE_NAMES[i]) else None
  }

  /**
   * `getToneName` once the floating-point `getTone` has produced `exactTone`:
   * the name of the nearest tone, `Math.round` deciding halves upwards.
   */
  function ToneName(exactTone: real): (r: Option<string>)
    ensures exactTone >= -0.5 ==> r.Some?
    ensures exactTone >= -0.5 ==> r.value == TONE_NAMES[Js.Round(exactTone) % OCTAVE]
  {
    NameOfTone(Js.Round(exactTone))
  }

  /** Tones an octave apart share their name. */
  lemma NameIsPeriodic(tone: int)
    requires tone >= 0
    ensures NameOfTone(tone + OCTAVE) == NameOfTone(tone)
  {
  }

  /** The reference frequency (tone 0) and the octave above it (tone 12) are both "A". */
  lemma ReferenceIsA()
    ensures ToneName(0.0) == Some("A")
    ensures ToneName(12.0) == Some("A")
  {
  }

  /**
   * `blackNotes.includes(note % OCTAVE)`. JavaScript's remainder of a negative
   * note is never positive, so only non-negative notes are black.
   */
  predicate IsBlackNote(note: int)
    ensures IsBlackNote(note) <==> 0 <= note && note % OCTAVE in BLACK_NOTES
  {
    Js.Rem(note, OCTAVE) in BLACK_NOTES
  }

  /** Within one octave, the black keys are exactly the sharps. */
  lemma BlackIndicesAreSharps(i: int)
    requires 0 <= i < OCTAVE
    ensures i in BLACK_NOTES <==> '#' in TONE_NAMES[i]
  {
    if i == 0 { assert TONE_NAMES[0] == "A"; }
    else if i == 2 { assert TONE_NAMES[2] == "B"; }
    else if i == 3 { assert TONE_NAMES[3] == "C"; }
    else if i == 5 { assert TONE_NAMES[5] == "D"; }
    else if i == 7 { assert TONE_NAMES[7] == "E"; }
    else if i == 8 { assert TONE_NAMES[8] == "F"; }
    else if i == 10 { assert TONE_NAMES[10] == "G"; }
    else { assert TONE_NAMES[i][1] == '#'; }
  }

  /**
   * A note is coloured black exactly when its name, looked up as in
   * `getToneName`, is a sharp; negative notes are never black.
   */
  lemma BlackKeysAreSharps(note: int)
    ensures IsBlackNote(note) <==> (NameOfTone(note).Some? && '#' in NameOfTone(note).value)
  {
    var i := Js.Rem(note, OCTAVE);
    if 0 <= i {
      BlackIndicesAreSharps(i);
    }
  }
}
