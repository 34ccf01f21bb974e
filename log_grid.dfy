/**
 * `LogGrid.renderNotes`: one vertical stroke per semitone band of the scale,
 * black for the black keys and white otherwise, optionally labelled with the
 * note's name.
 *
 * The loop's tests compare floating-point band edges: the upper edge of the
 * band of note `n` is `getToneNearFrequency(13.75 * 2^(n / 12), 0.5)`. Those
 * edges are the input `boundaryAbove(n)`, and `startBoundary` is the same
 * edge for `scaleMin`, where the loop starts. Canvas coordinates, widths and
 * the frequency part of a label are not part of this model.
 */
module Grid {
  import opened Wrappers
  import Js
  import Tones

  /** One stroke drawn on the canvas. */
  datatype Stroke = Stroke(note: nat, black: bool, caption: Option<string>)

  /** The stroke for `note`: its colour from `blackNotes`, its label from `TONE_NAMES`. */
  function StrokeFor(note: nat, renderLabels: bool): (s: Stroke)
    ensures s.note == note
  {
    Stroke(note, Tones.IsBlackNote(note), if renderLabels then Tones.NameOfTone(note) else None)
  }

  /**
   * A stroke is black exactly when its note's name is a sharp, and carries
   * that name when labels are drawn.
   */
  lemma StrokeColour(note: nat, renderLabels: bool)
    ensures StrokeFor(note, renderLabels).black <==> '#' in Tones.TONE_NAMES[note % Tones.OCTAVE]
    ensures renderLabels ==> StrokeFor(note, renderLabels).caption == Some(Tones.TONE_NAMES[note % Tones.OCTAVE])
    ensures !renderLabels ==> StrokeFor(note, renderLabels).caption == None
  {
    Tones.BlackKeysAreSharps(note);
  }

  /**
   * The strokes the loop has produced once it has stepped through notes
   * `1..n`: one per note whose band reaches `scaleMin`, in order.
   */
  function StrokesUpTo(boundaryAbove: nat -> real, scaleMin: real, n: nat, renderLabels: bool): seq<Stroke> {
    if n == 0 then []
    else
      StrokesUpTo(boundaryAbove, scaleMin, n - 1, renderLabels)
      + (if scaleMin <= boundaryAbove(n) then [StrokeFor(n, renderLabels)] else [])
  }

  /** Every stroke up to `n` is `StrokeFor` of a note in `1..n` whose band reaches `scaleMin`. */
  lemma {:induction false} StrokesUpToShape(boundaryAbove: nat -> real, scaleMin: real, n: nat, renderLabels: bool)
    ensures forall i :: 0 <= i < |StrokesUpTo(boundaryAbove, scaleMin, n, renderLabels)| ==>
      var s := StrokesUpTo(boundaryAbove, scaleMin, n, renderLabels)[i];
      s == StrokeFor(s.note, renderLabels) && 1 <= s.note <= n && scaleMin <= boundaryAbove(s.note)
  {
    if n > 0 {
      StrokesUpToShape(boundaryAbove, scaleMin, n - 1, renderLabels);
    }
  }

  /** The notes of the strokes strictly increase. */
  lemma {:induction false} StrokesUpToAscending(boundaryAbove: nat -> real, scaleMin: real, n: nat, renderLabels: bool)
    ensures forall i, j :: 0 <= i < j < |StrokesUpTo(boundaryAbove, scaleMin, n, renderLabels)| ==>
      StrokesUpTo(boundaryAbove, scaleMin, n, renderLabels)[i].note < StrokesUpTo(boundaryAbove, scaleMin, n, renderLabels)[j].note
  {
    if n > 0 {
      StrokesUpToAscending(boundaryAbove, scaleMin, n - 1, renderLabels);
      StrokesUpToShape(boundaryAbove, scaleMin, n - 1, renderLabels);
    }
  }

  /** Every note in `1..n` whose band reaches `scaleMin` has a stroke. */
  lemma {:induction false} StrokesUpToCover(boundaryAbove: nat -> real, scaleMin: real, n: nat, renderLabels: bool, k: nat)
    requires 1 <= k <= n && scaleMin <= boundaryAbove(k)
    ensures exists i ::
      && 0 <= i < |StrokesUpTo(boundaryAbove, scaleMin, n, renderLabels)|
      && StrokesUpTo(boundaryAbove, scaleMin, n, renderLabels)[i].note == k
  {
    var before := StrokesUpTo(boundaryAbove, scaleMin, n - 1, renderLabels);
    var after := StrokesUpTo(boundaryAbove, scaleMin, n, renderLabels);
    if k < n {
      StrokesUpToCover(boundaryAbove, scaleMin, n - 1, renderLabels, k);
      var i :| 0 <= i < |before| && before[i].note == k;
      assert after[i] == before[i];
    } else {
      assert after[|before|].note == k;
    }
  }

  /**
   * Whether `renderNotes` draws note `k`: the loop is entered, `k` is a
   * note the loop reaches (every band before it ends below `scaleMax`), and
   * the band of `k` reaches `scaleMin`.
   */
  ghost predicate Drawn(boundaryAbove: nat -> real, startBoundary: real, scaleMin: real, scaleMax: real, k: nat) {
    && startBoundary < scaleMax
    && 1 <= k
    && scaleMin <= boundaryAbove(k)
    && forall j: nat :: 1 <= j < k ==> boundaryAbove(j) < scaleMax
  }

  class LogGrid {
    var scaleMin: real
    var scaleMax: real
    var renderLabels: bool

    /** `begin`/`end` are the options of the same names, present or absent. */
    constructor (begin: Option<real>, end: Option<real>)
      ensures scaleMin == Js.Or(begin, 0.0) && scaleMax == Js.Or(end, 20000.0) && !renderLabels
    {
      scaleMin := Js.Or(begin, 0.0);
      scaleMax := Js.Or(end, 20000.0);
      renderLabels := false;
    }

    /**
     * The loop of `renderNotes`: `note` counts up from 0, and each note whose
     * band reaches `scaleMin` gets a stroke, until the band of the last note
     * reaches `scaleMax`.
     */
    method RenderNotes(boundaryAbove: nat -> real, startBoundary: real, ghost bound: nat) returns (strokes: seq<Stroke>)
      requires 1 <= bound && scaleMax <= boundaryAbove(bound)
      ensures forall i :: 0 <= i < |strokes| ==> strokes[i] == StrokeFor(strokes[i].note, renderLabels)
      ensures forall i, j :: 0 <= i < j < |strokes| ==> strokes[i].note < strokes[j].note
      ensures forall k: nat :: Drawn(boundaryAbove, startBoundary, scaleMin, scaleMax, k) <==>
        exists i :: 0 <= i < |strokes| && strokes[i].note == k
    {
      var frequencyBoundary := startBoundary;
      var note: nat := 0;
      strokes := [];
      while frequencyBoundary < scaleMax
        invariant note <= bound
        invariant note == 0 ==> frequencyBoundary == startBoundary
        invariant note > 0 ==> frequencyBoundary == boundaryAbove(note) && startBoundary < scaleMax
        invariant forall j: nat :: 1 <= j < note ==> boundaryAbove(j) < scaleMax
        invariant strokes == StrokesUpTo(boundaryAbove, scaleMin, note, renderLabels)
        decreases bound - note
      {
        note := note + 1;
        frequencyBoundary := boundaryAbove(note);
        if frequencyBoundary < scaleMin {
          continue;
        }
        strokes := strokes + [StrokeFor(note, renderLabels)];
      }
      StrokesUpToShape(boundaryAbove, scaleMin, note, renderLabels);
      StrokesUpToAscending(boundaryAbove, scaleMin, note, renderLabels);
      forall k: nat | Drawn(boundaryAbove, startBoundary, scaleMin, scaleMax, k)
        ensures exists i :: 0 <= i < |strokes| && strokes[i].note == k
      {
        if k > note {
          assert false;
        }
        StrokesUpToCover(boundaryAbove, scaleMin, note, renderLabels, k);
      }
    }
  }
}
